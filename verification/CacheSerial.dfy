/** Requests served one after the other are runs of the machine in which requests overlap. */
module CacheSerial {
  import opened Accounts
  import opened AccountRuns
  import opened CacheRaces
  import opened GoBytes
  import opened KeyTable
  import ModelCache
  import opened Registry
  import opened Wrappers

  type Serial = Accounts.Request

  lemma {:induction false} StepsSplit(env: Env, s: State, a: seq<Action>, b: seq<Action>)
    ensures Steps(env, s, a + b) == Steps(env, Steps(env, s, a), b)
  {
    if b == [] {
      assert a + b == a;
    } else {
      var init := b[..|b| - 1];
      assert (a + b)[..|a + b| - 1] == a + init;
      StepsSplit(env, s, a, init);
    }
  }

  function WriteSteps(id: nat, pair: Pair, value: Option<Bytes>, dbOk: bool): seq<Action>
  {
    [BeginWrite(id, pair, value), WriteRow(id, dbOk), PurgePair(id)]
  }

  /** Lookup, fetch and store for each of the first `n` keys. */
  function KeySteps(id: nat, http: Http, clock: Clock, n: nat): seq<Action>
  {
    if n == 0 then []
    else KeySteps(id, http, clock, n - 1)
         + [Lookup(id, clock(2 * (n - 1))), Answered(id, http), StoreModels(id, clock(2 * (n - 1) + 1))]
  }

  function ListSteps(id: nat, userId: string, refresh: bool, http: Http, clock: Clock, dbOk: bool, n: nat): seq<Action>
  {
    [BeginRead(id, userId, refresh), ListKeys(id, dbOk)] + KeySteps(id, http, clock, n)
  }

  /** The steps of one serial request; one that is turned away before its first write takes none. */
  function ServeSteps(env: Env, w: World, id: nat, r: Serial): seq<Action>
  {
    match r
    case RegisterKey(u, p, apiKey, http, random, dbOk) =>
      (match Registration(env, p, apiKey, http, random, true)
       case Ok(encrypted) => WriteSteps(id, (u, p), Some(encrypted), dbOk)
       case Err(_) => [])
    case DeleteKey(u, p, dbOk) => if IsValid(p) then WriteSteps(id, (u, p), None, dbOk) else []
    case ListModels(u, refresh, http, clock, dbOk) =>
      ListSteps(id, u, refresh, http, clock, dbOk, |DecryptedKeys(env, w.table, u)|)
    case PurgeCache(u) => [PurgeAll(u)]
    case SweepCache(now) => [SweepAll(now)]
  }

  function WorldOf(s: State): World
  {
    World(s.table, s.cache)
  }

  /** Three more steps. */
  lemma ThreeMoreSteps(env: Env, s: State, actions: seq<Action>, a: Action, b: Action, c: Action)
    ensures Steps(env, s, actions + [a, b, c]) == Step(env, Step(env, Step(env, Steps(env, s, actions), a), b), c)
  {
    hide Steps, Step;
    OneMoreStep(env, s, actions, a);
    OneMoreStep(env, s, actions + [a], b);
    OneMoreStep(env, s, actions + [a] + [b], c);
    assert actions + [a, b, c] == actions + [a] + [b] + [c];
  }

  lemma WriteIsSteps(env: Env, s: State, id: nat, pair: Pair, value: Option<Bytes>, dbOk: bool)
    ensures Steps(env, s, WriteSteps(id, pair, value, dbOk))
            == Step(env, Step(env, Step(env, s, BeginWrite(id, pair, value)), WriteRow(id, dbOk)), PurgePair(id))
  {
    hide Steps, Step;
    NoSteps(env, s);
    ThreeMoreSteps(env, s, [], BeginWrite(id, pair, value), WriteRow(id, dbOk), PurgePair(id));
    assert [] + WriteSteps(id, pair, value, dbOk) == WriteSteps(id, pair, value, dbOk);
  }

  /** A write that fails, or a deletion that finds no row, does not purge either. */
  lemma FailedWriteIs(env: Env, s: State, id: nat, pair: Pair, value: Option<Bytes>, dbOk: bool)
    requires id !in s.jobs && IsValid(pair.1) && (!dbOk || (value.None? && pair !in s.table))
    ensures var t := Step(env, Step(env, Step(env, s, BeginWrite(id, pair, value)), WriteRow(id, dbOk)), PurgePair(id));
            WorldOf(t) == WorldOf(s) && t.jobs.Keys == s.jobs.Keys + {id}
  {
    hide IsValid;
  }

  /** One write as its steps, whether it succeeds or not. */
  lemma WriteIsARun(env: Env, s: State, id: nat, pair: Pair, value: Option<Bytes>, dbOk: bool)
    requires id !in s.jobs && IsValid(pair.1)
    ensures var t := Steps(env, s, WriteSteps(id, pair, value, dbOk));
            && t.jobs.Keys == s.jobs.Keys + {id}
            && WorldOf(t) == if !dbOk || (value.None? && pair !in s.table) then WorldOf(s)
                             else World(match value case Some(row) => s.table[pair := row] case None => s.table - {pair},
                                        ModelCache.Purged(s.cache, pair.0, pair.1))
  {
    hide Steps, Step, IsValid, WriteSteps, ModelCache.Purged;
    WriteIsSteps(env, s, id, pair, value, dbOk);
    if !dbOk || (value.None? && pair !in s.table) {
      FailedWriteIs(env, s, id, pair, value, dbOk);
    } else {
      WholeWriteIs(env, s, id, pair, value);
    }
  }

  /** The listing is in this phase and has these models. */
  predicate AtPhase(s: State, id: nat, userId: string, refresh: bool, phase: Phase, models: ModelCache.Models)
  {
    && id in s.jobs && s.jobs[id].Reader?
    && (s.jobs[id].userId, s.jobs[id].refresh, s.jobs[id].phase, s.jobs[id].models) == (userId, refresh, phase, models)
  }

  /** A listing that is about to handle key `i`, or that is complete when there are no more. */
  predicate AtKey(s: State, id: nat, userId: string, refresh: bool, readAt: nat, keys: seq<DecryptedKey>, i: nat, d: Discovery)
  {
    && s.cache == d.cache
    && AtPhase(s, id, userId, refresh, if i < |keys| then Looking(readAt, keys, i) else Complete(readAt, keys), d.models)
  }

  /** Answers and stores do nothing to a listing that waits for neither. */
  lemma Ignored(env: Env, s: State, id: nat, a: Action)
    requires id in s.jobs && s.jobs[id].Reader? && OfJob(a) && a.id == id && (a.Lookup? || a.Answered? || a.StoreModels?)
    requires s.jobs[id].phase.Finished? || s.jobs[id].phase.Complete? || (s.jobs[id].phase.Looking? && !a.Lookup?)
    ensures Step(env, s, a) == Tick(s)
  {
    hide ModelCache.Answer, Fetch, DecryptedKeys;
  }

  lemma Looks(env: Env, s: State, id: nat, userId: string, refresh: bool, readAt: nat, keys: seq<DecryptedKey>, i: nat,
              models: ModelCache.Models, now: int)
    requires i < |keys| && AtPhase(s, id, userId, refresh, Looking(readAt, keys, i), models)
    ensures var cached := ModelCache.Answer(s.cache, userId, keys[i].provider, now);
            var t := Step(env, s, Lookup(id, now));
            && t.table == s.table && t.cache == s.cache && t.jobs.Keys == s.jobs.Keys
            && if !refresh && cached.Some?
               then AtPhase(t, id, userId, refresh, Next(readAt, keys, i), models + cached.value)
               else AtPhase(t, id, userId, refresh, Fetching(readAt, keys, i), models)
  {
    hide ModelCache.Answer, Next;
  }

  lemma Answers(env: Env, s: State, id: nat, userId: string, refresh: bool, readAt: nat, keys: seq<DecryptedKey>, i: nat,
                models: ModelCache.Models, http: Http)
    requires i < |keys| && AtPhase(s, id, userId, refresh, Fetching(readAt, keys, i), models)
    ensures var fetched := Fetch(http, keys[i].provider, keys[i].rawKey);
            var t := Step(env, s, Answered(id, http));
            && t.table == s.table && t.cache == s.cache && t.jobs.Keys == s.jobs.Keys
            && AtPhase(t, id, userId, refresh,
                       if fetched.Some? then Storing(readAt, keys, i, fetched.value) else Next(readAt, keys, i), models)
  {
    hide Fetch, Next;
  }

  lemma Keeps(env: Env, s: State, id: nat, userId: string, refresh: bool, readAt: nat, keys: seq<DecryptedKey>, i: nat,
              models: ModelCache.Models, fetched: ModelCache.Models, later: int)
    requires i < |keys| && AtPhase(s, id, userId, refresh, Storing(readAt, keys, i, fetched), models)
    ensures var t := Step(env, s, StoreModels(id, later));
            && t.table == s.table && t.jobs.Keys == s.jobs.Keys
            && t.cache == ModelCache.Stored(s.cache, userId, keys[i].provider,
                                            ModelCache.Entry(fetched, later + env.ttl, keys[i].rawKey))
            && AtPhase(t, id, userId, refresh, Next(readAt, keys, i), models + fetched)
  {
    hide Next, ModelCache.Stored;
  }

  /** The two steps after a miss. */
  lemma MissIsSteps(env: Env, s: State, id: nat, userId: string, refresh: bool, readAt: nat, keys: seq<DecryptedKey>,
                    i: nat, models: ModelCache.Models, http: Http, later: int)
    requires i < |keys| && AtPhase(s, id, userId, refresh, Fetching(readAt, keys, i), models)
    ensures var t := Step(env, Step(env, s, Answered(id, http)), StoreModels(id, later));
            && t.table == s.table && t.jobs.Keys == s.jobs.Keys
            && AtKey(t, id, userId, refresh, readAt, keys, i + 1,
                     match Fetch(http, keys[i].provider, keys[i].rawKey)
                     case None => Discovery(s.cache, models)
                     case Some(fetched) =>
                       Discovery(ModelCache.Stored(s.cache, userId, keys[i].provider,
                                                   ModelCache.Entry(fetched, later + env.ttl, keys[i].rawKey)),
                                 models + fetched))
  {
    hide Fetch, ModelCache.Stored, Step;
    Answers(env, s, id, userId, refresh, readAt, keys, i, models, http);
    var s2 := Step(env, s, Answered(id, http));
    if s2.jobs[id].phase.Storing? {
      Keeps(env, s2, id, userId, refresh, readAt, keys, i, models, s2.jobs[id].phase.fetched, later);
    } else {
      Ignored(env, s2, id, StoreModels(id, later));
    }
  }

  /** One round of the cache-or-fetch loop: a hit leaves the other two steps without effect. */
  lemma RoundIsSteps(env: Env, s: State, id: nat, userId: string, refresh: bool, readAt: nat, keys: seq<DecryptedKey>,
                     i: nat, models: ModelCache.Models, http: Http, now: int, later: int)
    requires i < |keys| && AtKey(s, id, userId, refresh, readAt, keys, i, Discovery(s.cache, models))
    ensures var t := Step(env, Step(env, Step(env, s, Lookup(id, now)), Answered(id, http)), StoreModels(id, later));
            && t.table == s.table && t.jobs.Keys == s.jobs.Keys
            && AtKey(t, id, userId, refresh, readAt, keys, i + 1,
                     DiscoverKey(env, Discovery(s.cache, models), userId, keys[i], refresh, http, now, later))
  {
    hide ModelCache.Answer, Fetch, ModelCache.Stored, Step;
    var s1 := Step(env, s, Lookup(id, now));
    Looks(env, s, id, userId, refresh, readAt, keys, i, models, now);
    if s1.jobs[id].phase.Fetching? {
      MissIsSteps(env, s1, id, userId, refresh, readAt, keys, i, models, http, later);
    } else {
      Ignored(env, s1, id, Answered(id, http));
      Ignored(env, Tick(s1), id, StoreModels(id, later));
    }
  }

  lemma {:induction false} RoundsAreSteps(env: Env, s: State, id: nat, userId: string, refresh: bool, readAt: nat,
                                          keys: seq<DecryptedKey>, http: Http, clock: Clock, n: nat)
    requires n <= |keys| && AtKey(s, id, userId, refresh, readAt, keys, 0, Discovery(s.cache, []))
    ensures var t := Steps(env, s, KeySteps(id, http, clock, n));
            && t.table == s.table && t.jobs.Keys == s.jobs.Keys
            && AtKey(t, id, userId, refresh, readAt, keys, n, Discover(env, s.cache, userId, keys[..n], refresh, http, clock))
  {
    hide Steps, Step, DiscoverKey, AtPhase;
    if n == 0 {
      NoSteps(env, s);
    } else {
      RoundsAreSteps(env, s, id, userId, refresh, readAt, keys, http, clock, n - 1);
      var a := KeySteps(id, http, clock, n - 1);
      ThreeMoreSteps(env, s, a, Lookup(id, clock(2 * (n - 1))), Answered(id, http), StoreModels(id, clock(2 * (n - 1) + 1)));
      var before := Discover(env, s.cache, userId, keys[..n - 1], refresh, http, clock);
      RoundIsSteps(env, Steps(env, s, a), id, userId, refresh, readAt, keys, n - 1, before.models, http,
                   clock(2 * (n - 1)), clock(2 * (n - 1) + 1));
      assert keys[..n][..n - 1] == keys[..n - 1];
    }
  }

  /** When the keys cannot be read nothing more happens. */
  lemma {:induction false} DoneStaysDone(env: Env, s: State, id: nat, http: Http, clock: Clock, n: nat)
    requires id in s.jobs && s.jobs[id].Reader? && s.jobs[id].phase.Finished?
    ensures var t := Steps(env, s, KeySteps(id, http, clock, n));
            WorldOf(t) == WorldOf(s) && t.jobs == s.jobs
  {
    hide Steps, Step;
    if n == 0 {
      NoSteps(env, s);
    } else {
      var a := KeySteps(id, http, clock, n - 1);
      var b, c, d := Lookup(id, clock(2 * (n - 1))), Answered(id, http), StoreModels(id, clock(2 * (n - 1) + 1));
      DoneStaysDone(env, s, id, http, clock, n - 1);
      ThreeMoreSteps(env, s, a, b, c, d);
      var s1 := Steps(env, s, a);
      Ignored(env, s1, id, b);
      Ignored(env, Tick(s1), id, c);
      Ignored(env, Tick(Tick(s1)), id, d);
    }
  }

  lemma ListBegins(env: Env, s: State, id: nat, userId: string, refresh: bool, dbOk: bool)
    requires id !in s.jobs
    ensures var t := Step(env, Step(env, s, BeginRead(id, userId, refresh)), ListKeys(id, dbOk));
            var keys := DecryptedKeys(env, s.table, userId);
            && t.table == s.table && t.cache == s.cache && t.jobs.Keys == s.jobs.Keys + {id}
            && if dbOk then AtKey(t, id, userId, refresh, |s.past| + 1, keys, 0, Discovery(s.cache, []))
               else AtPhase(t, id, userId, refresh, Finished, [])
  {
    hide DecryptedKeys;
  }

  /** A listing alone: the cache and the models are those of the loop. */
  lemma ListIsSteps(env: Env, s: State, id: nat, userId: string, refresh: bool, http: Http, clock: Clock, dbOk: bool)
    requires id !in s.jobs
    ensures var keys := DecryptedKeys(env, s.table, userId);
            var t := Steps(env, s, ListSteps(id, userId, refresh, http, clock, dbOk, |keys|));
            var found := Available(env, WorldOf(s), userId, refresh, http, clock);
            && t.table == s.table && t.jobs.Keys == s.jobs.Keys + {id}
            && t.cache == (if dbOk then found.cache else s.cache)
            && (dbOk ==> AtPhase(t, id, userId, refresh, Complete(|s.past| + 1, keys), found.models))
  {
    hide Steps, Step, DecryptedKeys, KeySteps, Discover;
    var keys := DecryptedKeys(env, s.table, userId);
    var a, b := BeginRead(id, userId, refresh), ListKeys(id, dbOk);
    NoSteps(env, s);
    OneMoreStep(env, s, [], a);
    OneMoreStep(env, s, [] + [a], b);
    assert [] + [a] + [b] == [a, b];
    ListBegins(env, s, id, userId, refresh, dbOk);
    StepsSplit(env, s, [a, b], KeySteps(id, http, clock, |keys|));
    if dbOk {
      RoundsAreSteps(env, Steps(env, s, [a, b]), id, userId, refresh, |s.past| + 1, keys, http, clock, |keys|);
      assert keys[..|keys|] == keys;
    } else {
      DoneStaysDone(env, Steps(env, s, [a, b]), id, http, clock, |keys|);
    }
  }

  /** Every request served alone leaves the table and the cache as its steps do. */
  lemma ServeIsARun(env: Env, s: State, id: nat, r: Serial)
    requires id !in s.jobs
    ensures var t := Steps(env, s, ServeSteps(env, WorldOf(s), id, r));
            WorldOf(t) == Serve(env, WorldOf(s), r) && t.jobs.Keys <= s.jobs.Keys + {id}
  {
    hide Steps, DecryptedKeys, Registration, IsValid, WriteSteps, ListSteps, Available, ModelCache.HasPrefix, ModelCache.CacheKey, WholeWrite, JobStep, ModelCache.Purged;
    NoSteps(env, s);
    match r
    case RegisterKey(u, p, apiKey, http, random, dbOk) =>
      var sealed := Registration(env, p, apiKey, http, random, true);
      RegisteredIsValid(env, p, apiKey, http, random, true);
      RegistrationSaves(env, p, apiKey, http, random, dbOk);
      if sealed.Ok? {
        WriteIsARun(env, s, id, (u, p), Some(sealed.value), dbOk);
      }
    case DeleteKey(u, p, dbOk) =>
      if IsValid(p) {
        WriteIsARun(env, s, id, (u, p), None, dbOk);
      }
    case ListModels(u, refresh, http, clock, dbOk) => ListIsSteps(env, s, id, u, refresh, http, clock, dbOk);
    case PurgeCache(u) =>
      OneMoreStep(env, s, [], PurgeAll(u));
      assert [] + [PurgeAll(u)] == [PurgeAll(u)];
    case SweepCache(now) =>
      OneMoreStep(env, s, [], SweepAll(now));
      assert [] + [SweepAll(now)] == [SweepAll(now)];
  }

  /** The steps of a whole serial run; the requests are numbered. */
  function SerialSteps(env: Env, table: Table, run: seq<Serial>): seq<Action>
  {
    if run == [] then []
    else
      var n := |run| - 1;
      SerialSteps(env, table, run[..n]) + ServeSteps(env, ServeAll(env, World(table, map[]), run[..n]), n, run[n])
  }

  /** Serial runs are among the interleaved ones, so what those keep holds of them too. */
  lemma {:induction false} SerialRunIsARun(env: Env, table: Table, run: seq<Serial>)
    ensures var t := CacheRaces.Run(env, table, SerialSteps(env, table, run));
            && WorldOf(t) == ServeAll(env, World(table, map[]), run)
            && forall id | id in t.jobs :: id < |run|
  {
    hide Steps, Serve, ServeSteps;
    if run == [] {
      NoSteps(env, Start(table));
    } else {
      var n := |run| - 1;
      SerialRunIsARun(env, table, run[..n]);
      var before := SerialSteps(env, table, run[..n]);
      var last := ServeSteps(env, ServeAll(env, World(table, map[]), run[..n]), n, run[n]);
      StepsSplit(env, Start(table), before, last);
      ServeIsARun(env, CacheRaces.Run(env, table, before), n, run[n]);
    }
  }
}
