/**
  Requests that overlap: registering or deleting a key is a write followed by a purge, listing models
  is a read of the keys followed by a lookup, a fetch and a store for each. Every repository, provider
  and cache call is one step, and steps of different requests mix in any order.
 */
module CacheRaces {
  import opened AccountRuns
  import opened Accounts
  import opened Cipher
  import opened GoBytes
  import opened KeyTable
  import opened ModelCache
  import opened Registry
  import opened Wrappers

  type Pair = (string, Provider)

  /** The steps at which the request of a cached list read its keys and stored the list. */
  datatype Origin = Origin(readAt: nat, setAt: nat)

  /** The steps of the last write to a pair and of that writer's purge. */
  datatype Write = Write(at: nat, purgedAt: Option<nat>)

  datatype Phase =
    | Waiting
    | Written(at: nat)                                        // stored or deleted the row, not yet purged
    | Looking(readAt: nat, keys: seq<DecryptedKey>, i: nat)   // about to look key i up in the cache
    | Fetching(readAt: nat, keys: seq<DecryptedKey>, i: nat)  // missed, waiting for the provider
    | Storing(readAt: nat, keys: seq<DecryptedKey>, i: nat, fetched: Models)
    | Complete(readAt: nat, keys: seq<DecryptedKey>)          // all keys handled
    | Finished

  /** A request under way: a row to store or delete, or a listing with its models so far and the keys whose fetch failed. */
  datatype Job =
    | Writer(pair: Pair, value: Option<Bytes>, phase: Phase)
    | Reader(userId: string, refresh: bool, phase: Phase, models: Models, lost: set<nat>)

  /** `past` has the table before each step taken, so its length counts the steps. */
  datatype State = State(past: seq<Table>, table: Table, cache: View, origins: map<Pair, Origin>,
                         writes: map<Pair, Write>, jobs: map<nat, Job>)

  datatype Action =
    | BeginWrite(id: nat, pair: Pair, value: Option<Bytes>)
    | BeginRead(id: nat, userId: string, refresh: bool)
    | WriteRow(id: nat, dbOk: bool)
    | PurgePair(id: nat)
    | ListKeys(id: nat, dbOk: bool)
    | Lookup(id: nat, now: int)
    | Answered(id: nat, http: Http)
    | StoreModels(id: nat, now: int)
    | PurgeAll(userId: string)
    | SweepAll(now: int)

  predicate OfJob(a: Action)
  {
    !a.BeginWrite? && !a.BeginRead? && !a.PurgeAll? && !a.SweepAll?
  }

  function KeyOf(env: Env, t: Table, pair: Pair): Option<Bytes>
  {
    StoredKey(env, t, pair.0, pair.1)
  }

  // ---- Steps ---------------------------------------------------------------------------------------

  /** An action that is not possible does nothing else. */
  function Tick(s: State): State
  {
    s.(past := s.past + [s.table])
  }

  function Move(s: State, id: nat, j: Job): State
  {
    Tick(s).(jobs := s.jobs[id := j])
  }

  function WriteStep(s: State, id: nat, pair: Pair, value: Option<Bytes>): State
  {
    Move(s, id, Writer(pair, value, Written(|s.past|)))
      .(writes := s.writes[pair := Write(|s.past|, None)],
        table := match value
                 case Some(row) => s.table[pair := row]
                 case None => s.table - {pair})
  }

  function PurgeStep(s: State, id: nat, pair: Pair, value: Option<Bytes>, at: nat): State
  {
    var t := Move(s, id, Writer(pair, value, Finished)).(cache := Purged(s.cache, pair.0, pair.1));
    if pair in s.writes && s.writes[pair].at == at
    then t.(writes := s.writes[pair := Write(at, Some(|s.past|))])
    else t
  }

  /** On to the next key, or to the end. */
  function Next(readAt: nat, keys: seq<DecryptedKey>, i: nat): Phase
  {
    if i + 1 < |keys| then Looking(readAt, keys, i + 1) else Complete(readAt, keys)
  }

  function StoreStep(env: Env, s: State, id: nat, j: Job, k: DecryptedKey, now: int): State
    requires j.Reader? && j.phase.Storing?
  {
    Move(s, id, Reader(j.userId, j.refresh, Next(j.phase.readAt, j.phase.keys, j.phase.i), j.models + j.phase.fetched,
                       j.lost))
      .(cache := Stored(s.cache, j.userId, k.provider, Entry(j.phase.fetched, now + env.ttl, k.rawKey)),
        origins := s.origins[(j.userId, k.provider) := Origin(j.phase.readAt, |s.past|)])
  }

  function JobStep(env: Env, s: State, a: Action, j: Job): State
    requires OfJob(a)
  {
    match (a, j)
    case (WriteRow(id, dbOk), Writer(pair, value, Waiting)) =>
      if !dbOk || (value.None? && pair !in s.table) then Move(s, id, Writer(pair, value, Finished))
      else WriteStep(s, id, pair, value)
    case (PurgePair(id), Writer(pair, value, Written(at))) => PurgeStep(s, id, pair, value, at)
    case (ListKeys(id, dbOk), Reader(u, refresh, Waiting, _, _)) =>
      var keys := DecryptedKeys(env, s.table, u);
      Move(s, id, Reader(u, refresh,
                         if !dbOk then Finished else if keys == [] then Complete(|s.past|, keys) else Looking(|s.past|, keys, 0),
                         [], {}))
    case (Lookup(id, now), Reader(u, refresh, Looking(readAt, keys, i), models, lost)) =>
      var cached := if i < |keys| then Answer(s.cache, u, keys[i].provider, now) else None;
      Move(s, id, if !refresh && cached.Some? then Reader(u, refresh, Next(readAt, keys, i), models + cached.value, lost)
                  else Reader(u, refresh, Fetching(readAt, keys, i), models, lost))
    case (Answered(id, http), Reader(u, refresh, Fetching(readAt, keys, i), models, lost)) =>
      var fetched := if i < |keys| then Fetch(http, keys[i].provider, keys[i].rawKey) else None;
      Move(s, id, if fetched.Some? then Reader(u, refresh, Storing(readAt, keys, i, fetched.value), models, lost)
                  else Reader(u, refresh, Next(readAt, keys, i), models, lost + {i}))
    case (StoreModels(id, now), Reader(u, refresh, Storing(readAt, keys, i, fetched), models, lost)) =>
      if i < |keys| then StoreStep(env, s, id, j, keys[i], now) else Tick(s)
    case _ => Tick(s)
  }

  /** Both services turn an unsupported provider away before their first call. */
  function Step(env: Env, s: State, a: Action): State
  {
    match a
    case BeginWrite(id, pair, value) =>
      if id in s.jobs || !IsValid(pair.1) then Tick(s) else Move(s, id, Writer(pair, value, Waiting))
    case BeginRead(id, u, refresh) =>
      if id in s.jobs then Tick(s) else Move(s, id, Reader(u, refresh, Waiting, [], {}))
    case PurgeAll(u) => Tick(s).(cache := UserPurged(s.cache, u))
    case SweepAll(now) => Tick(s).(cache := Swept(s.cache, now))
    case _ => if a.id in s.jobs then JobStep(env, s, a, s.jobs[a.id]) else Tick(s)
  }

  function Steps(env: Env, s: State, actions: seq<Action>): (t: State)
  {
    if actions == [] then s else Step(env, Steps(env, s, actions[..|actions| - 1]), actions[|actions| - 1])
  }

  function Start(table: Table): State
  {
    State([], table, map[], map[], map[], map[])
  }

  function Run(env: Env, table: Table, actions: seq<Action>): (s: State)
  {
    Steps(env, Start(table), actions)
  }

  lemma OneMoreStep(env: Env, s: State, actions: seq<Action>, a: Action)
    ensures Steps(env, s, actions + [a]) == Step(env, Steps(env, s, actions), a)
  {
    assert (actions + [a])[..|actions|] == actions;
  }

  lemma NoSteps(env: Env, s: State)
    ensures Steps(env, s, []) == s
  {
  }

  // ---- What every interleaving keeps ---------------------------------------------------------------

  predicate SameRow(a: Table, b: Table, pair: Pair)
  {
    (pair in a <==> pair in b) && (pair in a ==> a[pair] == b[pair])
  }

  predicate WrittenAfter(s: State, pair: Pair, t: nat)
  {
    pair in s.writes && t < s.writes[pair].at
  }

  /** The row is the one of step `t`, unless it has been written since. */
  predicate KnownSince(s: State, pair: Pair, t: nat)
    requires t < |s.past|
  {
    SameRow(s.past[t], s.table, pair) || WrittenAfter(s, pair, t)
  }

  /** The keys are those of the table at step `readAt`. */
  ghost predicate KeysOk(env: Env, s: State, userId: string, readAt: nat, keys: seq<DecryptedKey>)
  {
    && readAt < |s.past|
    && ValidTable(s.past[readAt]) && keys == DecryptedKeys(env, s.past[readAt], userId)
    && forall p | IsValid(p) :: KnownSince(s, (userId, p), readAt)
  }

  /** The list meets the claim for a key that was stored for the user and provider at some step. */
  ghost predicate Part(env: Env, claim: Claim, past: seq<Table>, userId: string, p: Provider, list: Models)
  {
    exists t | 0 <= t < |past| ::
      KeyOf(env, past[t], (userId, p)).Some? && claim(p, KeyOf(env, past[t], (userId, p)).value, list)
  }

  /** `models` has one such list after the other, for each of the first `n` keys but the lost ones. */
  ghost predicate Collected(env: Env, claim: Claim, past: seq<Table>, userId: string, keys: seq<DecryptedKey>, n: nat,
                            models: Models, lost: set<nat>)
    requires n <= |keys|
    decreases n
  {
    if n == 0 then models == []
    else if n - 1 in lost then Collected(env, claim, past, userId, keys, n - 1, models, lost)
    else exists k | 0 <= k <= |models| ::
           && Collected(env, claim, past, userId, keys, n - 1, models[..k], lost)
           && Part(env, claim, past, userId, keys[n - 1].provider, models[k..])
  }

  /** A listing that has handled the first `n` keys. */
  ghost predicate Progress(env: Env, claim: Claim, s: State, userId: string, readAt: nat, keys: seq<DecryptedKey>, n: nat,
                           models: Models, lost: set<nat>)
  {
    && n <= |keys| && KeysOk(env, s, userId, readAt, keys)
    && (forall j | j in lost :: j < n)
    && Collected(env, claim, s.past, userId, keys, n, models, lost)
  }

  ghost predicate JobOk(env: Env, claim: Claim, s: State, j: Job)
  {
    match j
    case Writer(pair, _, phase) =>
      && IsValid(pair.1)
      && (phase.Waiting? || phase.Finished? || (phase.Written? && pair in s.writes && phase.at <= s.writes[pair].at))
    case Reader(u, _, phase, models, lost) =>
      match phase
      case Waiting => true
      case Finished => true
      case Written(_) => false
      case Looking(readAt, keys, i) => i < |keys| && Progress(env, claim, s, u, readAt, keys, i, models, lost)
      case Fetching(readAt, keys, i) => i < |keys| && Progress(env, claim, s, u, readAt, keys, i, models, lost)
      case Storing(readAt, keys, i, fetched) =>
        && i < |keys| && Progress(env, claim, s, u, readAt, keys, i, models, lost)
        && claim(keys[i].provider, keys[i].rawKey, fetched)
      case Complete(readAt, keys) => Progress(env, claim, s, u, readAt, keys, |keys|, models, lost)
  }

  /** A cached list was fetched with the key that was stored when its request read the keys, and meets the claim. */
  ghost predicate CachedOk(env: Env, claim: Claim, s: State, pair: Pair)
  {
    CacheKey(pair.0, pair.1) in s.cache ==>
      && pair in s.origins
      && var o, e := s.origins[pair], s.cache[CacheKey(pair.0, pair.1)];
         && o.readAt < o.setAt < |s.past|
         && KeyOf(env, s.past[o.readAt], pair) == Some(e.fetchedWith)
         && claim(pair.1, e.fetchedWith, e.models)
         && KnownSince(s, pair, o.readAt)
         && (pair in s.writes && s.writes[pair].purgedAt.Some? ==> s.writes[pair].purgedAt.value < o.setAt)
  }

  /** Some writer of the pair is between its write and its purge. */
  ghost predicate Pending(s: State, pair: Pair, at: nat)
  {
    exists id :: id in s.jobs && s.jobs[id].Writer? && s.jobs[id].pair == pair && s.jobs[id].phase == Written(at)
  }

  ghost predicate WriteOk(s: State, pair: Pair)
  {
    pair in s.writes ==>
      var w := s.writes[pair];
      && w.at < |s.past|
      && (w.purgedAt.Some? ==> w.at < w.purgedAt.value < |s.past|)
      && (w.purgedAt.None? ==> Pending(s, pair, w.at))
  }

  ghost predicate Inv(env: Env, claim: Claim, s: State)
  {
    && ValidTable(s.table)
    && (forall id | id in s.jobs :: JobOk(env, claim, s, s.jobs[id]))
    && (forall pair: Pair | IsValid(pair.1) :: CachedOk(env, claim, s, pair))
    && (forall pair: Pair :: WriteOk(s, pair))
  }

  /** A writer in between is still there if only another request moved. */
  lemma StillPending(s: State, t: State, pair: Pair, at: nat, moved: Option<nat>)
    requires Pending(s, pair, at)
    requires forall id | id in s.jobs && Some(id) != moved :: id in t.jobs && t.jobs[id] == s.jobs[id]
    requires moved.Some? && moved.value in s.jobs ==>
               var j := s.jobs[moved.value];
               j.Writer? && j.pair == pair ==> j.phase != Written(at)
    ensures Pending(t, pair, at)
  {
    var id :| id in s.jobs && s.jobs[id].Writer? && s.jobs[id].pair == pair && s.jobs[id].phase == Written(at);
    assert id in t.jobs && t.jobs[id] == s.jobs[id];
  }

  /** What is known of a row stays known when the step writes no row. */
  lemma KnownStays(s: State, t: State, pair: Pair, at: nat)
    requires at < |s.past| && KnownSince(s, pair, at) && t.past == s.past + [s.table] && t.table == s.table
    requires forall q | q in s.writes :: q in t.writes && t.writes[q].at == s.writes[q].at
    ensures KnownSince(t, pair, at) && t.past[at] == s.past[at]
  {
  }

  lemma PartStays(env: Env, claim: Claim, past: seq<Table>, past': seq<Table>, userId: string, p: Provider, list: Models)
    requires Part(env, claim, past, userId, p, list) && past <= past'
    ensures Part(env, claim, past', userId, p, list)
  {
    hide KeyOf;
    var t :| 0 <= t < |past| && KeyOf(env, past[t], (userId, p)).Some?
             && claim(p, KeyOf(env, past[t], (userId, p)).value, list);
    assert past'[t] == past[t];
  }

  /** Later steps, and keys lost later, leave what has been collected as it is. */
  lemma {:induction false} CollectedStays(env: Env, claim: Claim, past: seq<Table>, past': seq<Table>, userId: string,
                                          keys: seq<DecryptedKey>, n: nat, models: Models, lost: set<nat>, lost': set<nat>)
    requires n <= |keys| && Collected(env, claim, past, userId, keys, n, models, lost) && past <= past'
    requires forall j: nat | j < n :: j in lost <==> j in lost'
    ensures Collected(env, claim, past', userId, keys, n, models, lost')
    decreases n
  {
    hide Part;
    if n == 0 {
    } else if n - 1 in lost {
      CollectedStays(env, claim, past, past', userId, keys, n - 1, models, lost, lost');
    } else {
      var k :| 0 <= k <= |models| && Collected(env, claim, past, userId, keys, n - 1, models[..k], lost)
               && Part(env, claim, past, userId, keys[n - 1].provider, models[k..]);
      CollectedStays(env, claim, past, past', userId, keys, n - 1, models[..k], lost, lost');
      PartStays(env, claim, past, past', userId, keys[n - 1].provider, models[k..]);
    }
  }

  lemma ProgressStays(env: Env, claim: Claim, s: State, t: State, userId: string, readAt: nat, keys: seq<DecryptedKey>,
                      n: nat, models: Models, lost: set<nat>)
    requires Progress(env, claim, s, userId, readAt, keys, n, models, lost) && t.past == s.past + [s.table]
    requires forall p | IsValid(p) :: KnownSince(t, (userId, p), readAt)
    ensures Progress(env, claim, t, userId, readAt, keys, n, models, lost)
  {
    hide DecryptedKeys, ValidTable, IsValid, KnownSince, Collected;
    CollectedStays(env, claim, s.past, t.past, userId, keys, n, models, lost, lost);
  }

  /** What a listing knows survives a step if the rows stay known. */
  lemma ReaderStaysOk(env: Env, claim: Claim, s: State, t: State, j: Job)
    requires JobOk(env, claim, s, j) && t.past == s.past + [s.table] && j.Reader?
    requires forall p, at | IsValid(p) && 0 <= at < |s.past| && KnownSince(s, (j.userId, p), at) ::
               KnownSince(t, (j.userId, p), at)
    ensures JobOk(env, claim, t, j)
  {
    hide DecryptedKeys, ValidTable, IsValid, KnownSince, Collected;
    match j.phase
    case Looking(readAt, keys, i) => ProgressStays(env, claim, s, t, j.userId, readAt, keys, i, j.models, j.lost);
    case Fetching(readAt, keys, i) => ProgressStays(env, claim, s, t, j.userId, readAt, keys, i, j.models, j.lost);
    case Storing(readAt, keys, i, _) => ProgressStays(env, claim, s, t, j.userId, readAt, keys, i, j.models, j.lost);
    case Complete(readAt, keys) => ProgressStays(env, claim, s, t, j.userId, readAt, keys, |keys|, j.models, j.lost);
    case _ =>
  }

  /** What a request knows survives a step that writes no row. */
  lemma JobStaysOk(env: Env, claim: Claim, s: State, t: State, j: Job)
    requires JobOk(env, claim, s, j) && t.past == s.past + [s.table] && t.table == s.table
    requires forall q | q in s.writes :: q in t.writes && t.writes[q].at == s.writes[q].at
    ensures JobOk(env, claim, t, j)
  {
    hide IsValid, KnownSince, Progress;
    if j.Reader? {
      forall p, at | IsValid(p) && 0 <= at < |s.past| && KnownSince(s, (j.userId, p), at)
        ensures KnownSince(t, (j.userId, p), at)
      {
        KnownStays(s, t, (j.userId, p), at);
      }
      ReaderStaysOk(env, claim, s, t, j);
    }
  }

  lemma CachedStaysOk(env: Env, claim: Claim, s: State, t: State, pair: Pair)
    requires CachedOk(env, claim, s, pair) && t.past == s.past + [s.table] && t.table == s.table && t.origins == s.origins
    requires t.writes == s.writes && forall k | k in t.cache :: k in s.cache && t.cache[k] == s.cache[k]
    ensures CachedOk(env, claim, t, pair)
  {
    hide KeyOf, CacheKey, KnownSince;
    if CacheKey(pair.0, pair.1) in t.cache {
      KnownStays(s, t, pair, s.origins[pair].readAt);
    }
  }

  /** A step that leaves table, writes and other requests alone, and takes nothing but entries out of the cache. */
  lemma QuietStepKeepsInv(env: Env, claim: Claim, s: State, t: State, moved: Option<nat>)
    requires Inv(env, claim, s) && t.past == s.past + [s.table] && t.table == s.table
    requires t.writes == s.writes && t.origins == s.origins
    requires forall k | k in t.cache :: k in s.cache && t.cache[k] == s.cache[k]
    requires forall i | i in s.jobs && Some(i) != moved :: i in t.jobs && t.jobs[i] == s.jobs[i]
    requires forall i | i in t.jobs && Some(i) != moved :: i in s.jobs
    requires moved.Some? && moved.value in s.jobs ==> !(s.jobs[moved.value].Writer? && s.jobs[moved.value].phase.Written?)
    requires moved.Some? && moved.value in t.jobs ==> JobOk(env, claim, t, t.jobs[moved.value])
    ensures Inv(env, claim, t)
  {
    hide JobOk, CachedOk, IsValid, ValidTable;
    forall pair: Pair
      ensures WriteOk(t, pair)
    {
      assert WriteOk(s, pair);
      if pair in s.writes && s.writes[pair].purgedAt.None? {
        StillPending(s, t, pair, s.writes[pair].at, moved);
      }
    }
    forall pair: Pair | IsValid(pair.1)
      ensures CachedOk(env, claim, t, pair)
    {
      CachedStaysOk(env, claim, s, t, pair);
    }
    forall i | i in t.jobs && Some(i) != moved
      ensures JobOk(env, claim, t, t.jobs[i])
    {
      JobStaysOk(env, claim, s, t, s.jobs[i]);
    }
  }

  lemma TickKeepsInv(env: Env, claim: Claim, s: State)
    requires Inv(env, claim, s)
    ensures Inv(env, claim, Tick(s))
  {
    hide Inv;
    QuietStepKeepsInv(env, claim, s, Tick(s), None);
  }

  lemma JobIsOk(env: Env, claim: Claim, s: State, id: nat)
    requires Inv(env, claim, s) && id in s.jobs
    ensures JobOk(env, claim, s, s.jobs[id])
  {
  }

  /** The key about to be used is the one that was stored when the keys were read. */
  lemma KeyWasStored(env: Env, s: State, userId: string, readAt: nat, keys: seq<DecryptedKey>, i: nat)
    requires KeysOk(env, s, userId, readAt, keys) && i < |keys|
    ensures IsValid(keys[i].provider) && KeyOf(env, s.past[readAt], (userId, keys[i].provider)) == Some(keys[i].rawKey)
  {
    hide IsValid, DecryptedKeys, StoredKey;
    DecryptedKeysAreStored(env, s.past[readAt], userId);
    assert keys[i] in keys;
  }

  /** A fetched list is stored: its pair gets a new origin, the others keep theirs. */
  lemma StoredIsOk(env: Env, claim: Claim, s: State, id: nat, now: int, pair: Pair)
    requires Inv(env, claim, s) && id in s.jobs && s.jobs[id].Reader? && s.jobs[id].phase.Storing? && IsValid(pair.1)
    ensures s.jobs[id].phase.i < |s.jobs[id].phase.keys|
    ensures CachedOk(env, claim, StoreStep(env, s, id, s.jobs[id], s.jobs[id].phase.keys[s.jobs[id].phase.i], now), pair)
  {
    hide IsValid, DecryptedKeys, StoredKey, CacheKey, ValidTable;
    JobIsOk(env, claim, s, id);
    var j := s.jobs[id];
    var k := j.phase.keys[j.phase.i];
    var t := StoreStep(env, s, id, j, k, now);
    KeyWasStored(env, s, j.userId, j.phase.readAt, j.phase.keys, j.phase.i);
    CacheKeyInjective(j.userId, k.provider, pair.0, pair.1);
    if pair == (j.userId, k.provider) {
      KnownStays(s, t, pair, j.phase.readAt);
      assert WriteOk(s, pair);
    } else {
      CachedStaysOk(env, claim, s, t.(cache := s.cache, origins := s.origins), pair);
    }
  }

  /** One more list, or one more lost key, and on to the next. */
  lemma ReaderGoesOn(env: Env, claim: Claim, s: State, t: State, userId: string, refresh: bool, readAt: nat,
                     keys: seq<DecryptedKey>, i: nat, models: Models, lost: set<nat>, list: Option<Models>)
    requires i < |keys| && Progress(env, claim, s, userId, readAt, keys, i, models, lost)
    requires list.Some? ==> Part(env, claim, s.past, userId, keys[i].provider, list.value)
    requires t.past == s.past + [s.table] && t.table == s.table && t.writes == s.writes
    ensures JobOk(env, claim, t, Reader(userId, refresh, Next(readAt, keys, i),
                                        if list.Some? then models + list.value else models,
                                        if list.Some? then lost else lost + {i}))
  {
    hide DecryptedKeys, ValidTable, IsValid, KnownSince, Part, KeysOk;
    var models' := if list.Some? then models + list.value else models;
    var lost' := if list.Some? then lost else lost + {i};
    CollectedStays(env, claim, s.past, s.past, userId, keys, i, models, lost, lost');
    if list.Some? {
      assert i !in lost && models'[..|models|] == models && models'[|models|..] == list.value;
    }
    assert Collected(env, claim, s.past, userId, keys, i + 1, models', lost');
    assert Progress(env, claim, s, userId, readAt, keys, i + 1, models', lost');
    NextStaysOk(env, claim, s, t, userId, refresh, readAt, keys, i, models', lost');
  }

  lemma NextStaysOk(env: Env, claim: Claim, s: State, t: State, userId: string, refresh: bool, readAt: nat,
                    keys: seq<DecryptedKey>, i: nat, models: Models, lost: set<nat>)
    requires i < |keys| && Progress(env, claim, s, userId, readAt, keys, i + 1, models, lost)
    requires t.past == s.past + [s.table] && t.table == s.table && t.writes == s.writes
    ensures JobOk(env, claim, t, Reader(userId, refresh, Next(readAt, keys, i), models, lost))
  {
    hide Progress;
    JobStaysOk(env, claim, s, t, Reader(userId, refresh, Next(readAt, keys, i), models, lost));
  }

  /** What was fetched with a key that was stored when the keys were read is a list of that key. */
  lemma FetchedIsPart(env: Env, claim: Claim, s: State, userId: string, readAt: nat, keys: seq<DecryptedKey>, i: nat, list: Models)
    requires KeysOk(env, s, userId, readAt, keys) && i < |keys| && claim(keys[i].provider, keys[i].rawKey, list)
    ensures Part(env, claim, s.past, userId, keys[i].provider, list)
  {
    hide KeyOf, IsValid, DecryptedKeys, ValidTable;
    KeyWasStored(env, s, userId, readAt, keys, i);
  }

  lemma StoreStepKeepsInv(env: Env, claim: Claim, s: State, id: nat, now: int)
    requires Inv(env, claim, s) && id in s.jobs && s.jobs[id].Reader? && s.jobs[id].phase.Storing?
    ensures Inv(env, claim, JobStep(env, s, StoreModels(id, now), s.jobs[id]))
  {
    hide CachedOk, IsValid, ValidTable, KeysOk, Collected, Part;
    var j := s.jobs[id];
    var t := JobStep(env, s, StoreModels(id, now), j);
    var quiet := t.(cache := s.cache, origins := s.origins);
    JobIsOk(env, claim, s, id);
    FetchedIsPart(env, claim, s, j.userId, j.phase.readAt, j.phase.keys, j.phase.i, j.phase.fetched);
    ReaderGoesOn(env, claim, s, quiet, j.userId, j.refresh, j.phase.readAt, j.phase.keys, j.phase.i, j.models, j.lost,
                 Some(j.phase.fetched));
    hide JobOk;
    QuietStepKeepsInv(env, claim, s, quiet, Some(id));
    StoredTablesKeepInv(env, claim, s, id, now, quiet);
  }

  lemma StoredTablesKeepInv(env: Env, claim: Claim, s: State, id: nat, now: int, quiet: State)
    requires Inv(env, claim, s) && id in s.jobs && s.jobs[id].Reader? && s.jobs[id].phase.Storing?
    requires Inv(env, claim, quiet)
    requires var t := JobStep(env, s, StoreModels(id, now), s.jobs[id]);
             quiet == t.(cache := s.cache, origins := s.origins)
    ensures Inv(env, claim, JobStep(env, s, StoreModels(id, now), s.jobs[id]))
  {
    hide JobOk, CachedOk, IsValid, ValidTable;
    var t := JobStep(env, s, StoreModels(id, now), s.jobs[id]);
    forall pair: Pair | IsValid(pair.1)
      ensures CachedOk(env, claim, t, pair)
    {
      StoredIsOk(env, claim, s, id, now, pair);
    }
    forall pair: Pair
      ensures WriteOk(t, pair)
    {
      assert WriteOk(quiet, pair) && t.jobs == quiet.jobs;
    }
    forall i | i in t.jobs
      ensures JobOk(env, claim, t, t.jobs[i])
    {
      SameKnowledge(env, claim, quiet, t, t.jobs[i]);
    }
  }

  /** What a request knows depends on tables and writes alone. */
  lemma SameKnowledge(env: Env, claim: Claim, s: State, t: State, j: Job)
    requires JobOk(env, claim, s, j) && t.past == s.past && t.table == s.table && t.writes == s.writes
    ensures JobOk(env, claim, t, j)
  {
    hide DecryptedKeys, ValidTable, IsValid, Collected;
  }

  lemma PurgeStepKeepsInv(env: Env, claim: Claim, s: State, id: nat, pair: Pair, value: Option<Bytes>, at: nat)
    requires Inv(env, claim, s) && id in s.jobs && s.jobs[id] == Writer(pair, value, Written(at))
    ensures Inv(env, claim, PurgeStep(s, id, pair, value, at))
  {
    hide IsValid, ValidTable, JobOk, CachedOk;
    var t := PurgeStep(s, id, pair, value, at);
    WrittenJob(env, claim, s, id);
    forall q: Pair
      ensures WriteOk(t, q)
    {
      assert WriteOk(s, q);
      if q in t.writes && t.writes[q].purgedAt.None? {
        StillPending(s, t, q, s.writes[q].at, Some(id));
      }
    }
    forall q: Pair | IsValid(q.1)
      ensures CachedOk(env, claim, t, q)
    {
      PurgedIsOk(env, claim, s, id, pair, value, at, q);
    }
    forall i | i in t.jobs && i != id
      ensures JobOk(env, claim, t, t.jobs[i])
    {
      JobStaysOk(env, claim, s, t, s.jobs[i]);
    }
    assert JobOk(env, claim, t, t.jobs[id]) by { FinishedJob(env, claim, t, pair, value); }
  }

  lemma WrittenJob(env: Env, claim: Claim, s: State, id: nat)
    requires Inv(env, claim, s) && id in s.jobs && s.jobs[id].Writer?
    ensures IsValid(s.jobs[id].pair.1)
    ensures s.jobs[id].phase.Written? ==> s.jobs[id].pair in s.writes && s.jobs[id].phase.at <= s.writes[s.jobs[id].pair].at
  {
    JobIsOk(env, claim, s, id);
  }

  lemma FinishedJob(env: Env, claim: Claim, s: State, pair: Pair, value: Option<Bytes>)
    requires IsValid(pair.1)
    ensures JobOk(env, claim, s, Writer(pair, value, Finished))
  {
  }

  lemma PurgedIsOk(env: Env, claim: Claim, s: State, id: nat, pair: Pair, value: Option<Bytes>, at: nat, q: Pair)
    requires CachedOk(env, claim, s, q) && IsValid(pair.1) && IsValid(q.1)
    ensures CachedOk(env, claim, PurgeStep(s, id, pair, value, at), q)
  {
    hide IsValid, CacheKey, KeyOf, KnownSince;
    CacheKeyInjective(pair.0, pair.1, q.0, q.1);
    var t := PurgeStep(s, id, pair, value, at);
    if CacheKey(q.0, q.1) in t.cache {
      KnownStays(s, t, q, s.origins[q].readAt);
    }
  }

  /** A write comes after everything that is known, so what it changes is known to be written since. */
  lemma KnownSurvivesWrite(s: State, id: nat, pair: Pair, value: Option<Bytes>, q: Pair, at: nat)
    requires at < |s.past| && KnownSince(s, q, at)
    requires q in s.writes ==> s.writes[q].at < |s.past|
    ensures KnownSince(WriteStep(s, id, pair, value), q, at)
  {
  }

  lemma JobSurvivesWrite(env: Env, claim: Claim, s: State, id: nat, pair: Pair, value: Option<Bytes>, j: Job)
    requires JobOk(env, claim, s, j) && forall q | q in s.writes :: s.writes[q].at < |s.past|
    ensures JobOk(env, claim, WriteStep(s, id, pair, value), j)
  {
    hide IsValid, KnownSince, Progress;
    if j.Reader? {
      forall p, at | IsValid(p) && 0 <= at < |s.past| && KnownSince(s, (j.userId, p), at)
        ensures KnownSince(WriteStep(s, id, pair, value), (j.userId, p), at)
      {
        KnownSurvivesWrite(s, id, pair, value, (j.userId, p), at);
      }
      ReaderStaysOk(env, claim, s, WriteStep(s, id, pair, value), j);
    }
  }

  lemma WriteStepTables(env: Env, claim: Claim, s: State, id: nat, pair: Pair, value: Option<Bytes>, q: Pair)
    requires Inv(env, claim, s) && id in s.jobs && s.jobs[id] == Writer(pair, value, Waiting)
    ensures WriteOk(WriteStep(s, id, pair, value), q)
    ensures IsValid(q.1) ==> CachedOk(env, claim, WriteStep(s, id, pair, value), q)
  {
    hide KeyOf, CacheKey, JobOk, KnownSince;
    var t := WriteStep(s, id, pair, value);
    assert WriteOk(s, q);
    if q == pair {
      assert id in t.jobs && t.jobs[id] == Writer(pair, value, Written(|s.past|));
      assert Pending(t, pair, |s.past|);
    } else if q in s.writes && s.writes[q].purgedAt.None? {
      StillPending(s, t, q, s.writes[q].at, Some(id));
    }
    if IsValid(q.1) && CacheKey(q.0, q.1) in t.cache {
      assert CachedOk(env, claim, s, q);
      KnownSurvivesWrite(s, id, pair, value, q, s.origins[q].readAt);
    }
  }

  lemma WriteStepKeepsInv(env: Env, claim: Claim, s: State, id: nat, pair: Pair, value: Option<Bytes>)
    requires Inv(env, claim, s) && id in s.jobs && s.jobs[id] == Writer(pair, value, Waiting)
    ensures Inv(env, claim, WriteStep(s, id, pair, value))
  {
    hide CachedOk, Pending, IsValid, JobOk;
    var t := WriteStep(s, id, pair, value);
    WrittenJob(env, claim, s, id);
    assert ValidTable(t.table);
    forall q: Pair
      ensures WriteOk(t, q) && (IsValid(q.1) ==> CachedOk(env, claim, t, q))
    {
      WriteStepTables(env, claim, s, id, pair, value, q);
    }
    forall q | q in s.writes
      ensures s.writes[q].at < |s.past|
    {
      assert WriteOk(s, q);
    }
    hide WriteOk;
    forall i | i in t.jobs && i != id
      ensures JobOk(env, claim, t, t.jobs[i])
    {
      JobSurvivesWrite(env, claim, s, id, pair, value, s.jobs[i]);
    }
    assert JobOk(env, claim, t, t.jobs[id]) by { WritingJob(env, claim, t, pair, value, |s.past|); }
  }

  lemma WritingJob(env: Env, claim: Claim, s: State, pair: Pair, value: Option<Bytes>, at: nat)
    requires IsValid(pair.1) && pair in s.writes && s.writes[pair].at == at
    ensures JobOk(env, claim, s, Writer(pair, value, Written(at)))
  {
  }

  lemma ListStepKeepsInv(env: Env, claim: Claim, s: State, id: nat, dbOk: bool)
    requires Inv(env, claim, s) && id in s.jobs && s.jobs[id].Reader? && s.jobs[id].phase.Waiting?
    ensures Inv(env, claim, JobStep(env, s, ListKeys(id, dbOk), s.jobs[id]))
  {
    hide DecryptedKeys, IsValid, CachedOk, WriteOk;
    QuietStepKeepsInv(env, claim, s, JobStep(env, s, ListKeys(id, dbOk), s.jobs[id]), Some(id));
  }

  /** A list in the cache is one of a key that was stored for its pair. */
  lemma CachedIsPart(env: Env, claim: Claim, s: State, userId: string, p: Provider, now: int)
    requires Inv(env, claim, s) && IsValid(p) && Answer(s.cache, userId, p, now).Some?
    ensures Part(env, claim, s.past, userId, p, Answer(s.cache, userId, p, now).value)
  {
    hide IsValid, KeyOf, CacheKey, KnownSince;
    CachedIsOk(env, claim, s, (userId, p));
  }

  lemma LookupStepKeepsInv(env: Env, claim: Claim, s: State, id: nat, now: int)
    requires Inv(env, claim, s) && id in s.jobs && s.jobs[id].Reader? && s.jobs[id].phase.Looking?
    ensures Inv(env, claim, JobStep(env, s, Lookup(id, now), s.jobs[id]))
  {
    hide IsValid, KeysOk, Answer, Inv, Collected, Part;
    var j := s.jobs[id];
    var t := JobStep(env, s, Lookup(id, now), j);
    JobIsOk(env, claim, s, id);
    var k := j.phase.keys[j.phase.i];
    var cached := Answer(s.cache, j.userId, k.provider, now);
    if !j.refresh && cached.Some? {
      KeyWasStored(env, s, j.userId, j.phase.readAt, j.phase.keys, j.phase.i);
      CachedIsPart(env, claim, s, j.userId, k.provider, now);
      ReaderGoesOn(env, claim, s, t, j.userId, j.refresh, j.phase.readAt, j.phase.keys, j.phase.i, j.models, j.lost, cached);
    } else {
      JobStaysOk(env, claim, s, t, t.jobs[id]);
    }
    QuietStepKeepsInv(env, claim, s, t, Some(id));
  }

  lemma AnsweredStepKeepsInv(env: Env, claim: Claim, s: State, id: nat, http: Http)
    requires Inv(env, claim, s) && Meets(http, claim)
    requires id in s.jobs && s.jobs[id].Reader? && s.jobs[id].phase.Fetching?
    ensures Inv(env, claim, JobStep(env, s, Answered(id, http), s.jobs[id]))
  {
    hide IsValid, KeysOk, Fetch, Inv, Collected, Part;
    var j := s.jobs[id];
    var t := JobStep(env, s, Answered(id, http), j);
    JobIsOk(env, claim, s, id);
    if Fetch(http, j.phase.keys[j.phase.i].provider, j.phase.keys[j.phase.i].rawKey).None? {
      ReaderGoesOn(env, claim, s, t, j.userId, j.refresh, j.phase.readAt, j.phase.keys, j.phase.i, j.models, j.lost, None);
    } else {
      JobStaysOk(env, claim, s, t, t.jobs[id]);
    }
    QuietStepKeepsInv(env, claim, s, t, Some(id));
  }

  lemma FailedWriteKeepsInv(env: Env, claim: Claim, s: State, id: nat, pair: Pair, value: Option<Bytes>)
    requires Inv(env, claim, s) && id in s.jobs && s.jobs[id] == Writer(pair, value, Waiting)
    ensures Inv(env, claim, Move(s, id, Writer(pair, value, Finished)))
  {
    hide Inv, JobOk, IsValid;
    WrittenJob(env, claim, s, id);
    var t := Move(s, id, Writer(pair, value, Finished));
    FinishedJob(env, claim, t, pair, value);
    QuietStepKeepsInv(env, claim, s, t, Some(id));
  }

  lemma JobStepKeepsInv(env: Env, claim: Claim, s: State, a: Action)
    requires Inv(env, claim, s) && OfJob(a) && a.id in s.jobs && (a.Answered? ==> Meets(a.http, claim))
    ensures Inv(env, claim, JobStep(env, s, a, s.jobs[a.id]))
  {
    hide Inv, DecryptedKeys, Answer, Fetch, WriteStep, PurgeStep, StoreStep;
    TickKeepsInv(env, claim, s);
    match (a, s.jobs[a.id])
    case (WriteRow(id, dbOk), Writer(pair, value, Waiting)) =>
      FailedWriteKeepsInv(env, claim, s, id, pair, value);
      WriteStepKeepsInv(env, claim, s, id, pair, value);
    case (PurgePair(id), Writer(pair, value, Written(at))) => PurgeStepKeepsInv(env, claim, s, id, pair, value, at);
    case (ListKeys(id, dbOk), Reader(_, _, Waiting, _, _)) => ListStepKeepsInv(env, claim, s, id, dbOk);
    case (Lookup(id, now), Reader(_, _, Looking(_, _, _), _, _)) => LookupStepKeepsInv(env, claim, s, id, now);
    case (Answered(id, http), Reader(_, _, Fetching(_, _, _), _, _)) => AnsweredStepKeepsInv(env, claim, s, id, http);
    case (StoreModels(id, now), Reader(_, _, Storing(_, _, _, _), _, _)) => StoreStepKeepsInv(env, claim, s, id, now);
    case _ =>
  }

  lemma BeginKeepsInv(env: Env, claim: Claim, s: State, id: nat, j: Job)
    requires Inv(env, claim, s) && id !in s.jobs && j.phase.Waiting? && (j.Writer? ==> IsValid(j.pair.1))
    ensures Inv(env, claim, Move(s, id, j))
  {
    hide IsValid, Inv;
    QuietStepKeepsInv(env, claim, s, Move(s, id, j), Some(id));
  }

  lemma StepKeepsInv(env: Env, claim: Claim, s: State, a: Action)
    requires Inv(env, claim, s) && (a.Answered? ==> Meets(a.http, claim))
    ensures Inv(env, claim, Step(env, s, a))
  {
    hide Inv, JobStep, IsValid, HasPrefix;
    TickKeepsInv(env, claim, s);
    match a
    case BeginWrite(id, pair, value) =>
      if id !in s.jobs && IsValid(pair.1) {
        BeginKeepsInv(env, claim, s, id, Writer(pair, value, Waiting));
      }
    case BeginRead(id, u, refresh) =>
      if id !in s.jobs {
        BeginKeepsInv(env, claim, s, id, Reader(u, refresh, Waiting, [], {}));
      }
    case PurgeAll(u) => QuietStepKeepsInv(env, claim, s, Step(env, s, a), None);
    case SweepAll(now) => QuietStepKeepsInv(env, claim, s, Step(env, s, a), None);
    case _ =>
      if a.id in s.jobs {
        JobStepKeepsInv(env, claim, s, a);
      }
  }

  /** Whatever providers answer during the run meets the claim. */
  ghost predicate AnswersMeet(actions: seq<Action>, claim: Claim)
  {
    forall a | a in actions && a.Answered? :: Meets(a.http, claim)
  }

  lemma {:induction false} RunsKeepInv(env: Env, claim: Claim, table: Table, actions: seq<Action>)
    requires ValidTable(table) && AnswersMeet(actions, claim)
    ensures Inv(env, claim, Run(env, table, actions))
  {
    hide Step, ValidTable, Meets;
    if actions == [] {
    } else {
      RunsKeepInv(env, claim, table, actions[..|actions| - 1]);
      StepKeepsInv(env, claim, Run(env, table, actions[..|actions| - 1]), actions[|actions| - 1]);
    }
  }

  const ANY: Claim := (p, key, models) => true

  /** What a step does to the past, to rows and to the other requests. */
  predicate Advances(s: State, t: State, a: Action)
    requires OfJob(a)
  {
    && t.past == s.past + [s.table]
    && (forall pair | pair in s.writes :: pair in t.writes)
    && (forall i | i in s.jobs && i != a.id :: i in t.jobs && t.jobs[i] == s.jobs[i])
  }

  /** Unwritten rows stay. */
  ghost predicate KeepsRows(s: State, t: State)
  {
    forall pair | pair !in t.writes :: SameRow(t.table, s.table, pair)
  }

  lemma MovesAdvance(s: State, a: Action)
    requires OfJob(a)
    ensures Advances(s, Tick(s), a) && KeepsRows(s, Tick(s))
    ensures forall j :: Advances(s, Move(s, a.id, j), a) && KeepsRows(s, Move(s, a.id, j))
  {
  }

  lemma WriteStepAdvances(s: State, a: Action, pair: Pair, value: Option<Bytes>)
    requires OfJob(a)
    ensures Advances(s, WriteStep(s, a.id, pair, value), a) && KeepsRows(s, WriteStep(s, a.id, pair, value))
  {
  }

  lemma PurgeStepAdvances(s: State, a: Action, pair: Pair, value: Option<Bytes>, at: nat)
    requires OfJob(a)
    ensures Advances(s, PurgeStep(s, a.id, pair, value, at), a) && KeepsRows(s, PurgeStep(s, a.id, pair, value, at))
  {
    hide Purged;
  }

  lemma StoreStepAdvances(env: Env, s: State, a: Action, j: Job, k: DecryptedKey, now: int)
    requires OfJob(a) && j.Reader? && j.phase.Storing?
    ensures Advances(s, StoreStep(env, s, a.id, j, k, now), a) && KeepsRows(s, StoreStep(env, s, a.id, j, k, now))
  {
    hide Stored, Next;
  }

  lemma JobStepAdvances(env: Env, s: State, a: Action, j: Job)
    requires OfJob(a)
    ensures Advances(s, JobStep(env, s, a, j), a) && KeepsRows(s, JobStep(env, s, a, j))
  {
    hide Tick, Move, WriteStep, PurgeStep, StoreStep, Advances, KeepsRows, DecryptedKeys, Answer, Fetch, Next;
    MovesAdvance(s, a);
    match (a, j)
    case (WriteRow(_, _), Writer(pair, value, Waiting)) => WriteStepAdvances(s, a, pair, value);
    case (PurgePair(_), Writer(pair, value, Written(at))) => PurgeStepAdvances(s, a, pair, value, at);
    case (StoreModels(_, now), Reader(_, _, Storing(_, keys, i, _), _, _)) =>
      if i < |keys| {
        StoreStepAdvances(env, s, a, j, keys[i], now);
      }
    case _ =>
  }

  /** A step adds the table it finds to the past and forgets nothing. */
  lemma StepExtendsPast(env: Env, s: State, a: Action)
    ensures Step(env, s, a).past == s.past + [s.table]
  {
    hide JobStep, IsValid, UserPurged, Swept;
    if OfJob(a) && a.id in s.jobs {
      JobStepAdvances(env, s, a, s.jobs[a.id]);
    }
  }

  /** The past is the history of the run. */
  lemma {:induction false} PastIsHistory(env: Env, table: Table, actions: seq<Action>, t: nat)
    requires t < |actions|
    ensures |Run(env, table, actions).past| == |actions|
    ensures Run(env, table, actions).past[t] == Run(env, table, actions[..t]).table
  {
    hide Step;
    var n := |actions| - 1;
    StepExtendsPast(env, Run(env, table, actions[..n]), actions[n]);
    PastIsLong(env, table, actions[..n]);
    if t == n {
    } else {
      assert actions[..n][..t] == actions[..t];
      PastIsHistory(env, table, actions[..n], t);
    }
  }

  lemma {:induction false} PastIsLong(env: Env, table: Table, actions: seq<Action>)
    ensures |Run(env, table, actions).past| == |actions|
  {
    hide Step;
    if actions == [] {
    } else {
      var n := |actions| - 1;
      PastIsLong(env, table, actions[..n]);
      StepExtendsPast(env, Run(env, table, actions[..n]), actions[n]);
    }
  }

  // ---- When a cached list is stale -----------------------------------------------------------------

  /** The entry was fetched with a key that is no longer the stored one. */
  predicate Stale(env: Env, s: State, pair: Pair)
  {
    var k := CacheKey(pair.0, pair.1);
    k in s.cache && KeyOf(env, s.table, pair) != Some(s.cache[k].fetchedWith)
  }

  /** No registration or deletion of the pair is between its write and its purge. */
  ghost predicate Quiescent(s: State, pair: Pair)
  {
    forall at :: !Pending(s, pair, at)
  }

  /**
    In every interleaving an entry is stale exactly when the key stored for its pair is not the one that was
    stored when the entry's request read the keys.
   */
  lemma StaleExactlyWhenReplaced(env: Env, table: Table, actions: seq<Action>, pair: Pair)
    requires ValidTable(table) && IsValid(pair.1)
    ensures var s := Run(env, table, actions);
            CacheKey(pair.0, pair.1) in s.cache ==>
              && pair in s.origins && s.origins[pair].readAt < |actions|
              && (Stale(env, s, pair) <==>
                  KeyOf(env, s.table, pair) != KeyOf(env, Run(env, table, actions[..s.origins[pair].readAt]).table, pair))
  {
    hide Run, IsValid, ValidTable, KeyOf, CacheKey;
    RunsKeepInv(env, ANY, table, actions);
    var s := Run(env, table, actions);
    PastIsLong(env, table, actions);
    if CacheKey(pair.0, pair.1) in s.cache {
      CachedIsOk(env, ANY, s, pair);
      PastIsHistory(env, table, actions, s.origins[pair].readAt);
    }
  }

  lemma CachedIsOk(env: Env, claim: Claim, s: State, pair: Pair)
    requires Inv(env, claim, s) && IsValid(pair.1)
    ensures CachedOk(env, claim, s, pair) && WriteOk(s, pair)
  {
  }

  /** A stale entry's request read the keys before the last write to the pair. */
  lemma StaleWasOvertaken(env: Env, table: Table, actions: seq<Action>, pair: Pair)
    requires ValidTable(table) && IsValid(pair.1)
    requires Stale(env, Run(env, table, actions), pair)
    ensures var s := Run(env, table, actions);
            pair in s.origins && pair in s.writes && s.origins[pair].readAt < s.writes[pair].at < |actions|
  {
    hide Run, IsValid, ValidTable, CacheKey, Decrypt;
    RunsKeepInv(env, ANY, table, actions);
    CachedIsOk(env, ANY, Run(env, table, actions), pair);
    PastIsLong(env, table, actions);
  }

  /** And at rest it can only have been stored after that write's purge. */
  lemma StaleWasStoredAfterPurge(env: Env, table: Table, actions: seq<Action>, pair: Pair)
    requires ValidTable(table) && IsValid(pair.1)
    requires Stale(env, Run(env, table, actions), pair) && Quiescent(Run(env, table, actions), pair)
    ensures var s := Run(env, table, actions);
            && pair in s.origins && pair in s.writes && s.writes[pair].purgedAt.Some?
            && s.origins[pair].readAt < s.writes[pair].at < s.writes[pair].purgedAt.value < s.origins[pair].setAt
  {
    hide Run, IsValid, ValidTable, CacheKey, KnownSince, KeyOf;
    RunsKeepInv(env, ANY, table, actions);
    CachedIsOk(env, ANY, Run(env, table, actions), pair);
    StaleWasOvertaken(env, table, actions, pair);
  }

  // ---- The race happens ----------------------------------------------------------------------------

  /** A refreshing listing that has fetched with the only key and is about to keep the result. */
  lemma FetchedAndWaiting(env: Env, pair: Pair, row: Bytes, key: Bytes, http: Http) returns (actions: seq<Action>)
    requires IsValid(pair.1) && Decrypt(env.gcm, row, env.masterKey) == Ok(key) && Fetch(http, pair.1, key).Some?
    ensures var t: Table := map[pair := row];
            var keys := [DecryptedKey(pair.1, key)];
            Run(env, t, actions)
            == State([t, t, t, t], t, map[], map[], map[],
                     map[0 := Reader(pair.0, true, Storing(1, keys, 0, Fetch(http, pair.1, key).value), [], {})])
  {
    hide IsValid, Steps, DecryptedKeys, Decrypt, Fetch, Answer;
    var t: Table := map[pair := row];
    OneRowOneKey(env, pair.0, pair.1, row, key);
    var a1 := [] + [BeginRead(0, pair.0, true)];
    var a2 := a1 + [ListKeys(0, true)];
    var a3 := a2 + [Lookup(0, 0)];
    NoSteps(env, Start(t));
    OneMoreStep(env, Start(t), [], BeginRead(0, pair.0, true));
    OneMoreStep(env, Start(t), a1, ListKeys(0, true));
    OneMoreStep(env, Start(t), a2, Lookup(0, 0));
    OneMoreStep(env, Start(t), a3, Answered(0, http));
    actions := a3 + [Answered(0, http)];
  }

  /** A registration or deletion that runs from its start to its purge while nothing else moves. */
  function WholeWrite(env: Env, s: State, id: nat, pair: Pair, value: Option<Bytes>): State
  {
    Step(env, Step(env, Step(env, s, BeginWrite(id, pair, value)), WriteRow(id, true)), PurgePair(id))
  }

  lemma WholeWriteIs(env: Env, s: State, id: nat, pair: Pair, value: Option<Bytes>)
    requires id !in s.jobs && IsValid(pair.1) && (value.None? ==> pair in s.table)
    ensures var t := WholeWrite(env, s, id, pair, value);
            && t.table == (match value case Some(row) => s.table[pair := row] case None => s.table - {pair})
            && t.cache == Purged(s.cache, pair.0, pair.1)
            && t.jobs == s.jobs[id := Writer(pair, value, Finished)]
            && t.origins == s.origins && |t.past| == |s.past| + 3
  {
    hide IsValid, CacheKey;
    var s1 := Step(env, s, BeginWrite(id, pair, value));
    var s2 := Step(env, s1, WriteRow(id, true));
    assert s2 == WriteStep(s1, id, pair, value);
    var s3 := Step(env, s2, PurgePair(id));
    assert s3 == PurgeStep(s2, id, pair, value, |s1.past|);
    assert s3.jobs == s.jobs[id := Writer(pair, value, Finished)];
  }

  /** Replacing or deleting any key while a listing waits for its provider leaves a stale entry at rest. */
  lemma RaceLeavesStaleEntry(env: Env, pair: Pair, row: Bytes, key: Bytes, http: Http, value: Option<Bytes>)
    requires IsValid(pair.1) && Decrypt(env.gcm, row, env.masterKey) == Ok(key) && Fetch(http, pair.1, key).Some?
    requires value.Some? ==> Decrypt(env.gcm, value.value, env.masterKey) != Ok(key)
    ensures exists actions ::
              Stale(env, Run(env, map[pair := row], actions), pair) && Quiescent(Run(env, map[pair := row], actions), pair)
  {
    hide IsValid, Steps, Step, Decrypt, Fetch;
    var t: Table := map[pair := row];
    var a := FetchedAndWaiting(env, pair, row, key, http);
    var a1 := a + [BeginWrite(1, pair, value)];
    var a2 := a1 + [WriteRow(1, true)];
    var a3 := a2 + [PurgePair(1)];
    OneMoreStep(env, Start(t), a, BeginWrite(1, pair, value));
    OneMoreStep(env, Start(t), a1, WriteRow(1, true));
    OneMoreStep(env, Start(t), a2, PurgePair(1));
    OneMoreStep(env, Start(t), a3, StoreModels(0, 0));
    var s := Run(env, t, a);
    assert Run(env, t, a3) == WholeWrite(env, s, 1, pair, value);
    WholeWriteIs(env, s, 1, pair, value);
    StoredLate(env, Run(env, t, a3), pair, key, value, Fetch(http, pair.1, key).value);
    assert Stale(env, Run(env, t, a3 + [StoreModels(0, 0)]), pair);
  }

  lemma StoredLate(env: Env, s: State, pair: Pair, key: Bytes, value: Option<Bytes>, fetched: Models)
    requires s.jobs == map[0 := Reader(pair.0, true, Storing(1, [DecryptedKey(pair.1, key)], 0, fetched), [], {}),
                           1 := Writer(pair, value, Finished)]
    requires KeyOf(env, s.table, pair) != Some(key)
    ensures Stale(env, Step(env, s, StoreModels(0, 0)), pair) && Quiescent(Step(env, s, StoreModels(0, 0)), pair)
  {
    hide KeyOf, CacheKey;
    var t := Step(env, s, StoreModels(0, 0));
    assert t == StoreStep(env, s, 0, s.jobs[0], DecryptedKey(pair.1, key), 0);
  }
}
