/** What overlapping requests find in the cache, what listings answer, and what users see of each other. */
module CacheAnswers {
  import opened AccountRuns
  import opened Accounts
  import opened CacheRaces
  import opened KeyTable
  import Cipher
  import ModelCache
  import opened Registry
  import opened Wrappers

  // ---- Cached lists --------------------------------------------------------------------------------

  /** In every interleaving a cached list meets what all answers of the providers meet. */
  lemma CachedListsMeet(env: Env, claim: Claim, table: Table, actions: seq<Action>, pair: Pair)
    requires ValidTable(table) && AnswersMeet(actions, claim) && IsValid(pair.1)
    ensures var s, k := CacheRaces.Run(env, table, actions), ModelCache.CacheKey(pair.0, pair.1);
            k in s.cache ==> claim(pair.1, s.cache[k].fetchedWith, s.cache[k].models)
  {
    hide CacheRaces.Run, IsValid, ValidTable, AnswersMeet, KeyOf, KnownSince;
    RunsKeepInv(env, claim, table, actions);
    CachedIsOk(env, claim, CacheRaces.Run(env, table, actions), pair);
  }

  lemma TagsAreMet(actions: seq<Action>)
    ensures AnswersMeet(actions, TagClaim())
  {
    hide Meets, TagClaim;
    forall a | a in actions && a.Answered?
      ensures Meets(a.http, TagClaim())
    {
      AllFetchesTag(a.http);
    }
  }

  /** So every model cached for a pair carries its provider. */
  lemma CachedListsAreTagged(env: Env, table: Table, actions: seq<Action>, pair: Pair)
    requires ValidTable(table) && IsValid(pair.1)
    ensures var s, k := CacheRaces.Run(env, table, actions), ModelCache.CacheKey(pair.0, pair.1);
            k in s.cache ==> Tagged(s.cache[k].models, pair.1)
  {
    hide CacheRaces.Run, IsValid, ValidTable, AnswersMeet;
    TagsAreMet(actions);
    CachedListsMeet(env, TagClaim(), table, actions, pair);
  }

  // ---- Complete listings ---------------------------------------------------------------------------

  /**
    In every interleaving a complete listing answers for the keys that were stored when it read them, and its
    models are, key by key but for the lost ones, lists of keys stored for that user and provider at some time.
   */
  lemma CompleteListing(env: Env, claim: Claim, table: Table, actions: seq<Action>, id: nat)
    requires ValidTable(table) && AnswersMeet(actions, claim)
    requires id in CacheRaces.Run(env, table, actions).jobs
    requires CacheRaces.Run(env, table, actions).jobs[id].Reader?
    requires CacheRaces.Run(env, table, actions).jobs[id].phase.Complete?
    ensures var s := CacheRaces.Run(env, table, actions);
            var j := s.jobs[id];
            var readAt, keys := j.phase.readAt, j.phase.keys;
            && readAt < |actions|
            && keys == DecryptedKeys(env, CacheRaces.Run(env, table, actions[..readAt]).table, j.userId)
            && Collected(env, claim, s.past, j.userId, keys, |keys|, j.models, j.lost)
  {
    hide CacheRaces.Run, IsValid, ValidTable, AnswersMeet, Collected, KnownSince, DecryptedKeys;
    RunsKeepInv(env, claim, table, actions);
    var s := CacheRaces.Run(env, table, actions);
    JobIsOk(env, claim, s, id);
    PastIsLong(env, table, actions);
    PastIsHistory(env, table, actions, s.jobs[id].phase.readAt);
  }

  lemma {:induction false} CollectedAreTagged(env: Env, past: seq<Table>, userId: string, keys: seq<DecryptedKey>, n: nat,
                                              models: ModelCache.Models, lost: set<nat>)
    requires n <= |keys| && Collected(env, TagClaim(), past, userId, keys, n, models, lost)
    ensures forall m | m in models :: m.provider in Providers(keys)
    decreases n
  {
    hide KeyOf;
    if n == 0 {
    } else if n - 1 in lost {
      CollectedAreTagged(env, past, userId, keys, n - 1, models, lost);
    } else {
      var k :| 0 <= k <= |models| && Collected(env, TagClaim(), past, userId, keys, n - 1, models[..k], lost)
               && Part(env, TagClaim(), past, userId, keys[n - 1].provider, models[k..]);
      CollectedAreTagged(env, past, userId, keys, n - 1, models[..k], lost);
      assert Tagged(models[k..], keys[n - 1].provider);
      assert models == models[..k] + models[k..];
      assert Providers(keys)[n - 1] in Providers(keys);
    }
  }

  /** Whatever overlaps with it, the models of a complete listing belong to its active providers. */
  lemma ListedModelsBelongToProviders(env: Env, table: Table, actions: seq<Action>, id: nat)
    requires ValidTable(table)
    requires id in CacheRaces.Run(env, table, actions).jobs
    requires CacheRaces.Run(env, table, actions).jobs[id].Reader?
    requires CacheRaces.Run(env, table, actions).jobs[id].phase.Complete?
    ensures var j := CacheRaces.Run(env, table, actions).jobs[id];
            forall m | m in j.models :: m.provider in Providers(j.phase.keys)
  {
    hide CacheRaces.Run, ValidTable, AnswersMeet, Collected, DecryptedKeys, TagClaim;
    TagsAreMet(actions);
    CompleteListing(env, TagClaim(), table, actions, id);
    var s := CacheRaces.Run(env, table, actions);
    CollectedAreTagged(env, s.past, s.jobs[id].userId, s.jobs[id].phase.keys, |s.jobs[id].phase.keys|,
                       s.jobs[id].models, s.jobs[id].lost);
  }

  // ---- Fixed catalogues ----------------------------------------------------------------------------

  /** The lists of the first `n` keys without the lost ones. */
  function ListedBut(cat: Catalogue, keys: seq<DecryptedKey>, n: nat, lost: set<nat>): (models: ModelCache.Models)
    requires n <= |keys|
  {
    if n == 0 then []
    else ListedBut(cat, keys, n - 1, lost) + if n - 1 in lost then [] else cat(keys[n - 1].provider, keys[n - 1].rawKey)
  }

  lemma {:induction false} NothingLost(cat: Catalogue, keys: seq<DecryptedKey>, n: nat)
    requires n <= |keys|
    ensures ListedBut(cat, keys, n, {}) == Listed(cat, keys[..n])
  {
    if n == 0 {
    } else {
      NothingLost(cat, keys, n - 1);
      assert keys[..n][..n - 1] == keys[..n - 1];
    }
  }

  lemma {:induction false} CollectedFromCatalogue(env: Env, cat: Catalogue, past: seq<Table>, userId: string,
                                                  keys: seq<DecryptedKey>, n: nat, models: ModelCache.Models, lost: set<nat>)
    requires n <= |keys| && Collected(env, InCatalogue(cat), past, userId, keys, n, models, lost)
    requires forall i, t | 0 <= i < |keys| && 0 <= t < |past| ::
               KeyOf(env, past[t], (userId, keys[i].provider)) == Some(keys[i].rawKey)
    ensures models == ListedBut(cat, keys, n, lost)
    decreases n
  {
    hide KeyOf;
    if n == 0 {
    } else if n - 1 in lost {
      CollectedFromCatalogue(env, cat, past, userId, keys, n - 1, models, lost);
    } else {
      var k :| 0 <= k <= |models| && Collected(env, InCatalogue(cat), past, userId, keys, n - 1, models[..k], lost)
               && Part(env, InCatalogue(cat), past, userId, keys[n - 1].provider, models[k..]);
      CollectedFromCatalogue(env, cat, past, userId, keys, n - 1, models[..k], lost);
      assert models == models[..k] + models[k..];
    }
  }

  /** A step that leaves a pair unwritten leaves its row. */
  lemma StepKeepsUnwritten(env: Env, s: State, a: Action, pair: Pair)
    requires pair !in CacheRaces.Step(env, s, a).writes
    ensures pair !in s.writes && SameRow(CacheRaces.Step(env, s, a).table, s.table, pair)
  {
    hide JobStep, IsValid, ModelCache.UserPurged, ModelCache.Swept;
    if OfJob(a) && a.id in s.jobs {
      JobStepAdvances(env, s, a, s.jobs[a.id]);
    }
  }

  lemma {:induction false} UnwrittenRowsStay(env: Env, table: Table, actions: seq<Action>, pair: Pair)
    requires pair !in CacheRaces.Run(env, table, actions).writes
    ensures var s := CacheRaces.Run(env, table, actions);
            SameRow(s.table, table, pair) && forall t | 0 <= t < |s.past| :: SameRow(s.past[t], table, pair)
  {
    hide CacheRaces.Step;
    if actions == [] {
    } else {
      var n := |actions| - 1;
      var before := CacheRaces.Run(env, table, actions[..n]);
      StepKeepsUnwritten(env, before, actions[n], pair);
      UnwrittenRowsStay(env, table, actions[..n], pair);
      StepExtendsPast(env, before, actions[n]);
    }
  }

  lemma {:induction false} SameRowsAmong(a: Table, b: Table, userId: string, providers: seq<Provider>)
    requires forall p | p in providers :: SameRow(a, b, (userId, p))
    ensures RowsAmong(a, userId, providers) == RowsAmong(b, userId, providers)
  {
    if providers == [] {
    } else {
      var init, last := providers[..|providers| - 1], providers[|providers| - 1];
      assert last in providers;
      assert forall p | p in init :: p in providers;
      SameRowsAmong(a, b, userId, init);
    }
  }

  lemma SameRowsSameKeys(env: Env, a: Table, b: Table, userId: string)
    requires forall p | IsValid(p) :: SameRow(a, b, (userId, p))
    ensures DecryptedKeys(env, a, userId) == DecryptedKeys(env, b, userId)
  {
    hide DecryptRows, RowsAmong;
    SameRowsAmong(a, b, userId, SORTED);
  }

  /** The keys of a table whose user's rows never changed. */
  lemma KeysNeverChanged(env: Env, table: Table, past: seq<Table>, userId: string)
    requires ValidTable(table) && forall p, t | IsValid(p) && 0 <= t < |past| :: SameRow(past[t], table, (userId, p))
    ensures var keys := DecryptedKeys(env, table, userId);
            forall i, t | 0 <= i < |keys| && 0 <= t < |past| ::
              KeyOf(env, past[t], (userId, keys[i].provider)) == Some(keys[i].rawKey)
  {
    hide DecryptedKeys, ValidTable, IsValid, Cipher.Decrypt;
    DecryptedKeysAreStored(env, table, userId);
    var keys := DecryptedKeys(env, table, userId);
    forall i, t | 0 <= i < |keys| && 0 <= t < |past|
      ensures KeyOf(env, past[t], (userId, keys[i].provider)) == Some(keys[i].rawKey)
    {
      assert keys[i] in keys;
      assert SameRow(past[t], table, (userId, keys[i].provider));
    }
  }

  /**
    While a user's keys stay as they are and each provider's answer to a key is fixed, a complete listing of that
    user has the catalogues of the keys in provider order, but for the lost ones, whatever overlaps with it.
   */
  lemma OverlappingListing(env: Env, cat: Catalogue, table: Table, actions: seq<Action>, id: nat)
    requires ValidTable(table) && AnswersMeet(actions, InCatalogue(cat))
    requires id in CacheRaces.Run(env, table, actions).jobs
    requires CacheRaces.Run(env, table, actions).jobs[id].Reader?
    requires CacheRaces.Run(env, table, actions).jobs[id].phase.Complete?
    requires forall p | IsValid(p) :: (CacheRaces.Run(env, table, actions).jobs[id].userId, p)
                                      !in CacheRaces.Run(env, table, actions).writes
    ensures var j := CacheRaces.Run(env, table, actions).jobs[id];
            var keys := DecryptedKeys(env, table, j.userId);
            && j.phase.keys == keys
            && j.models == ListedBut(cat, keys, |keys|, j.lost)
            && (j.lost == {} ==> j.models == Listed(cat, keys))
  {
    hide CacheRaces.Run, ValidTable, AnswersMeet, Collected, DecryptedKeys, InCatalogue, IsValid, ListedBut, Listed, SameRow;
    var s := CacheRaces.Run(env, table, actions);
    var j := s.jobs[id];
    CompleteListing(env, InCatalogue(cat), table, actions, id);
    forall p, t | IsValid(p) && 0 <= t < |s.past|
      ensures SameRow(s.past[t], table, (j.userId, p))
    {
      UnwrittenRowsStay(env, table, actions, (j.userId, p));
    }
    PastIsHistory(env, table, actions, j.phase.readAt);
    SameRowsSameKeys(env, s.past[j.phase.readAt], table, j.userId);
    var keys := DecryptedKeys(env, table, j.userId);
    KeysNeverChanged(env, table, s.past, j.userId);
    CollectedFromCatalogue(env, cat, s.past, j.userId, keys, |keys|, j.models, j.lost);
    NothingLost(cat, keys, |keys|);
    assert keys[..|keys|] == keys;
  }

  // ---- Other users ---------------------------------------------------------------------------------

  function UserOf(j: Job): string
  {
    match j
    case Writer(pair, _, _) => pair.0
    case Reader(userId, _, _, _, _) => userId
  }

  /** A step for another user, a purge that does not reach this one, or a sweep at a time not after `now`. */
  predicate ForeignStep(s: State, a: Action, u: string, now: int)
  {
    match a
    case BeginWrite(_, _, _) => true
    case BeginRead(_, _, _) => true
    case PurgeAll(v) => v != u && !(v + ":" <= u)
    case SweepAll(at) => at <= now
    case _ => a.id in s.jobs ==> UserOf(s.jobs[a.id]) != u
  }

  /** What a user sees: the stored key, and what the cache answers. */
  predicate SameForUser(env: Env, s: State, t: State, u: string, p: Provider, now: int)
  {
    && KeyOf(env, s.table, (u, p)) == KeyOf(env, t.table, (u, p))
    && ModelCache.Answer(s.cache, u, p, now) == ModelCache.Answer(t.cache, u, p, now)
  }

  lemma WriterLeavesUser(env: Env, claim: Claim, s: State, a: Action, u: string, p: Provider, now: int)
    requires Inv(env, claim, s) && IsValid(p) && OfJob(a) && a.id in s.jobs && s.jobs[a.id].Writer?
    requires s.jobs[a.id].pair.0 != u
    ensures SameForUser(env, s, JobStep(env, s, a, s.jobs[a.id]), u, p, now)
  {
    hide IsValid, ModelCache.CacheKey, Cipher.Decrypt, JobOk, CachedOk, WriteOk;
    var pair := s.jobs[a.id].pair;
    WrittenJob(env, claim, s, a.id);
    ModelCache.CacheKeyInjective(pair.0, pair.1, u, p);
  }

  lemma ReaderLeavesUser(env: Env, claim: Claim, s: State, a: Action, u: string, p: Provider, now: int)
    requires Inv(env, claim, s) && IsValid(p) && OfJob(a) && a.id in s.jobs && s.jobs[a.id].Reader?
    requires s.jobs[a.id].userId != u
    ensures SameForUser(env, s, JobStep(env, s, a, s.jobs[a.id]), u, p, now)
  {
    hide IsValid, ModelCache.CacheKey, StoredKey, CachedOk, WriteOk, DecryptedKeys, Fetch, Collected, ValidTable, KnownSince;
    JobIsOk(env, claim, s, a.id);
    var j := s.jobs[a.id];
    if a.StoreModels? && j.phase.Storing? {
      KeyWasStored(env, s, j.userId, j.phase.readAt, j.phase.keys, j.phase.i);
      ModelCache.CacheKeyInjective(j.userId, j.phase.keys[j.phase.i].provider, u, p);
    }
  }

  /** A foreign step moves none of the user's requests and nothing the user sees. */
  lemma StepLeavesUser(env: Env, claim: Claim, s: State, a: Action, u: string, p: Provider, now: int)
    requires Inv(env, claim, s) && IsValid(p) && ForeignStep(s, a, u, now)
    ensures SameForUser(env, s, CacheRaces.Step(env, s, a), u, p, now)
  {
    hide IsValid, ModelCache.CacheKey, StoredKey, Inv, JobStep, ModelCache.HasPrefix, ModelCache.Answer;
    match a
    case PurgeAll(v) => UserPurgedKeepsAnswers(s.cache, v, u, p, now);
    case SweepAll(at) => SweptKeepsAnswers(s.cache, at, u, p, now);
    case BeginWrite(_, _, _) =>
    case BeginRead(_, _, _) =>
    case _ =>
      if a.id in s.jobs {
        if s.jobs[a.id].Writer? {
          WriterLeavesUser(env, claim, s, a, u, p, now);
        } else {
          ReaderLeavesUser(env, claim, s, a, u, p, now);
        }
      }
  }

  lemma StepLeavesRequests(env: Env, s: State, a: Action, u: string, now: int, id: nat)
    requires ForeignStep(s, a, u, now) && id in s.jobs && UserOf(s.jobs[id]) == u
    ensures id in CacheRaces.Step(env, s, a).jobs && CacheRaces.Step(env, s, a).jobs[id] == s.jobs[id]
  {
    hide JobStep, IsValid, ModelCache.UserPurged, ModelCache.Swept;
    if OfJob(a) && a.id in s.jobs {
      JobStepAdvances(env, s, a, s.jobs[a.id]);
    }
  }

  /** All steps are foreign to the user. */
  predicate AllForeign(env: Env, s: State, steps: seq<Action>, u: string, now: int)
  {
    steps == []
    || (AllForeign(env, s, steps[..|steps| - 1], u, now)
        && ForeignStep(Steps(env, s, steps[..|steps| - 1]), steps[|steps| - 1], u, now))
  }

  lemma {:induction false} StepsLeaveUser(env: Env, s: State, steps: seq<Action>, u: string, p: Provider, now: int)
    requires Inv(env, ANY, s) && IsValid(p) && AllForeign(env, s, steps, u, now)
    ensures Inv(env, ANY, Steps(env, s, steps)) && SameForUser(env, s, Steps(env, s, steps), u, p, now)
    ensures forall id | id in s.jobs && UserOf(s.jobs[id]) == u ::
              id in Steps(env, s, steps).jobs && Steps(env, s, steps).jobs[id] == s.jobs[id]
  {
    hide CacheRaces.Step, Inv, IsValid, ForeignStep, KeyOf, ModelCache.Answer;
    if steps == [] {
    } else {
      var init, last := steps[..|steps| - 1], steps[|steps| - 1];
      var t := Steps(env, s, init);
      StepsLeaveUser(env, s, init, u, p, now);
      StepLeavesUser(env, ANY, t, last, u, p, now);
      StepKeepsInv(env, ANY, t, last);
      forall id | id in s.jobs && UserOf(s.jobs[id]) == u
        ensures id in Steps(env, s, steps).jobs && Steps(env, s, steps).jobs[id] == s.jobs[id]
      {
        StepLeavesRequests(env, t, last, u, now, id);
      }
    }
  }

  /**
    From every reachable state, any number of steps for others change neither a user's keys and requests nor what
    the cache answers that user.
   */
  lemma OverlappingUsersAreIsolated(env: Env, table: Table, actions: seq<Action>, more: seq<Action>, u: string,
                                    p: Provider, now: int)
    requires ValidTable(table) && IsValid(p) && AllForeign(env, CacheRaces.Run(env, table, actions), more, u, now)
    ensures var s := CacheRaces.Run(env, table, actions);
            var t := Steps(env, s, more);
            && SameForUser(env, s, t, u, p, now)
            && forall id | id in s.jobs && UserOf(s.jobs[id]) == u :: id in t.jobs && t.jobs[id] == s.jobs[id]
  {
    hide Steps, IsValid, AllForeign, KeyOf, ModelCache.Answer;
    RunsKeepInv(env, ANY, table, actions);
    StepsLeaveUser(env, CacheRaces.Run(env, table, actions), more, u, p, now);
  }
}
