/**
  API keys and cached models of all users as one value, the requests that change them one after the
  other, and what every such run keeps.
 */
module Accounts {
  import opened Cipher
  import opened GoBytes
  import opened KeyTable
  import opened ModelCache
  import opened Registry
  import opened Wrappers

  /** What does not change while the server runs. */
  datatype Env = Env(gcm: Gcm, masterKey: Bytes, ttl: int)

  datatype World = World(table: Table, cache: View)

  datatype ServiceError = ValidationFailed | EncryptFailed | SaveFailed | KeyNotFound | DatabaseFailed

  datatype DecryptedKey = DecryptedKey(provider: Provider, rawKey: Bytes)

  // ---- Registering and deleting --------------------------------------------------------------------

  /** The encrypted key to store, or why `RegisterKey` stores none. */
  function Registration(env: Env, provider: Provider, apiKey: Bytes, http: Http, random: Bytes, dbOk: bool)
    : (r: Result<Bytes, ServiceError>)
  {
    var key := TrimSpace(apiKey);
    if !IsValid(provider) || key == [] then Err(ValidationFailed)
    else
      var probe := Fetch(http, provider, key);
      if probe.None? || probe.value == [] then Err(ValidationFailed)
      else match Encrypt(env.gcm, key, env.masterKey, random)
           case Err(_) => Err(EncryptFailed)
           case Ok(encrypted) => if dbOk then Ok(encrypted) else Err(SaveFailed)
  }

  /** Exactly what a registration needs to end in an encrypted key, and what each error means. */
  predicate RegistrationEnds(env: Env, provider: Provider, apiKey: Bytes, http: Http, random: Bytes, dbOk: bool,
                             r: Result<Bytes, ServiceError>)
  {
    var key := TrimSpace(apiKey);
    var probed := Fetch(http, provider, key);
    var valid := IsValid(provider) && key != [] && probed.Some? && probed.value != [];
    var sealable := (|env.masterKey| == 16 || |env.masterKey| == 24 || |env.masterKey| == 32) && |random| >= 12;
    && (r.Ok? <==> valid && sealable && dbOk)
    && (r == Err(ValidationFailed) <==> !valid)
    && (r == Err(EncryptFailed) <==> valid && !sealable)
    && (r == Err(SaveFailed) <==> valid && sealable && !dbOk)
    && (r.Ok? ==> Decrypt(env.gcm, r.value, env.masterKey) == Ok(key))
  }

  lemma RegistrationOutcome(env: Env, provider: Provider, apiKey: Bytes, http: Http, random: Bytes, dbOk: bool)
    ensures RegistrationEnds(env, provider, apiKey, http, random, dbOk,
                             Registration(env, provider, apiKey, http, random, dbOk))
  {
    hide TrimSpace, Fetch, Decrypt, IsValid;
    var key := TrimSpace(apiKey);
    if Encrypt(env.gcm, key, env.masterKey, random).Ok? {
      DecryptEncrypted(env.gcm, key, env.masterKey, random);
    }
  }

  /** The database has the last word. */
  lemma RegistrationSaves(env: Env, provider: Provider, apiKey: Bytes, http: Http, random: Bytes, dbOk: bool)
    ensures var sealed := Registration(env, provider, apiKey, http, random, true);
            Registration(env, provider, apiKey, http, random, dbOk) == if sealed.Ok? && !dbOk then Err(SaveFailed) else sealed
  {
    hide TrimSpace, Fetch, Encrypt, IsValid;
  }

  /** Only a stored key purges; every early return leaves everything alone. */
  function Register(w: World, userId: string, provider: Provider, r: Result<Bytes, ServiceError>): World
  {
    match r
    case Ok(encrypted) => World(w.table[(userId, provider) := encrypted], Purged(w.cache, userId, provider))
    case Err(_) => w
  }

  function Deletion(w: World, userId: string, provider: Provider, dbOk: bool): (r: Result<(), ServiceError>)
  {
    if !IsValid(provider) then Err(ValidationFailed)
    else if !dbOk then Err(DatabaseFailed)
    else if (userId, provider) !in w.table then Err(KeyNotFound)
    else Ok(())
  }

  function Delete(w: World, userId: string, provider: Provider, r: Result<(), ServiceError>): World
  {
    match r
    case Ok(_) => World(w.table - {(userId, provider)}, Purged(w.cache, userId, provider))
    case Err(_) => w
  }

  // ---- Reading keys back ---------------------------------------------------------------------------

  /** The stored key of a pair in clear, if there is one that decrypts. */
  function StoredKey(env: Env, t: Table, userId: string, provider: Provider): (key: Option<Bytes>)
  {
    if (userId, provider) !in t then None
    else match Decrypt(env.gcm, t[(userId, provider)], env.masterKey)
         case Ok(key) => Some(key)
         case Err(_) => None
  }

  function DecryptRows(env: Env, rows: seq<Row>): (keys: seq<DecryptedKey>)
  {
    if rows == [] then []
    else
      var last := rows[|rows| - 1];
      DecryptRows(env, rows[..|rows| - 1]) +
      match Decrypt(env.gcm, last.encryptedKey, env.masterKey)
      case Ok(key) => [DecryptedKey(last.provider, key)]
      case Err(_) => []
  }

  function DecryptedKeys(env: Env, t: Table, userId: string): (keys: seq<DecryptedKey>)
  {
    DecryptRows(env, RowsOf(t, userId))
  }

  predicate DistinctProviders(keys: seq<DecryptedKey>)
  {
    forall i, j | 0 <= i < j < |keys| :: keys[i].provider != keys[j].provider
  }

  /** Strictly by provider. */
  predicate SortedKeys(keys: seq<DecryptedKey>)
  {
    forall i, j | 0 <= i < j < |keys| :: Less(keys[i].provider, keys[j].provider)
  }

  lemma {:induction false} DecryptedRowsAreKept(env: Env, rows: seq<Row>, r: Row)
    requires r in rows && Decrypt(env.gcm, r.encryptedKey, env.masterKey).Ok?
    ensures DecryptedKey(r.provider, Decrypt(env.gcm, r.encryptedKey, env.masterKey).value) in DecryptRows(env, rows)
  {
    hide Decrypt;
    var init, last := rows[..|rows| - 1], rows[|rows| - 1];
    assert rows == init + [last];
    if r == last {
    } else {
      DecryptedRowsAreKept(env, init, r);
    }
  }

  lemma {:induction false} KeptRowsDecrypt(env: Env, rows: seq<Row>, k: DecryptedKey)
    requires k in DecryptRows(env, rows)
    ensures exists r | r in rows :: r.provider == k.provider && Decrypt(env.gcm, r.encryptedKey, env.masterKey) == Ok(k.rawKey)
  {
    hide Decrypt;
    var init, last := rows[..|rows| - 1], rows[|rows| - 1];
    assert last in rows;
    if k in DecryptRows(env, init) {
      KeptRowsDecrypt(env, init, k);
      var r :| r in init && r.provider == k.provider && Decrypt(env.gcm, r.encryptedKey, env.masterKey) == Ok(k.rawKey);
      assert r in rows;
    } else {
      assert last.provider == k.provider && Decrypt(env.gcm, last.encryptedKey, env.masterKey) == Ok(k.rawKey);
    }
  }

  lemma {:induction false} DecryptRowsSorts(env: Env, rows: seq<Row>)
    requires SortedRows(rows)
    ensures SortedKeys(DecryptRows(env, rows))
  {
    hide Decrypt;
    if rows == [] {
    } else {
      var init, last := rows[..|rows| - 1], rows[|rows| - 1];
      DecryptRowsSorts(env, init);
      var before := DecryptRows(env, init);
      forall k | k in before
        ensures Less(k.provider, last.provider)
      {
        KeptRowsDecrypt(env, init, k);
        var r :| r in init && r.provider == k.provider;
        var i :| 0 <= i < |init| && init[i] == r;
        assert Less(rows[i].provider, rows[|rows| - 1].provider);
      }
    }
  }

  lemma SortedAreDistinct(keys: seq<DecryptedKey>)
    requires SortedKeys(keys)
    ensures DistinctProviders(keys)
  {
    forall i, j | 0 <= i < j < |keys|
      ensures keys[i].provider != keys[j].provider
    {
      LessIsStrict(keys[i].provider);
    }
  }

  /** The key list holds each pair's stored key that decrypts and nothing else, strictly by provider. */
  lemma DecryptedKeysAreStored(env: Env, t: Table, userId: string)
    requires ValidTable(t)
    ensures forall k | k in DecryptedKeys(env, t, userId) ::
              IsValid(k.provider) && StoredKey(env, t, userId, k.provider) == Some(k.rawKey)
    ensures forall p | StoredKey(env, t, userId, p).Some? ::
              DecryptedKey(p, StoredKey(env, t, userId, p).value) in DecryptedKeys(env, t, userId)
    ensures SortedKeys(DecryptedKeys(env, t, userId)) && DistinctProviders(DecryptedKeys(env, t, userId))
  {
    hide Decrypt, RowsOf, DecryptRows, IsValid, SortedRows, Less;
    RowsOfAreTheRows(t, userId);
    var rows := RowsOf(t, userId);
    DecryptRowsSorts(env, rows);
    SortedAreDistinct(DecryptRows(env, rows));
    forall k | k in DecryptedKeys(env, t, userId)
      ensures IsValid(k.provider) && StoredKey(env, t, userId, k.provider) == Some(k.rawKey)
    {
      KeptRowsDecrypt(env, rows, k);
      var r :| r in rows && r.provider == k.provider && Decrypt(env.gcm, r.encryptedKey, env.masterKey) == Ok(k.rawKey);
      assert IsValid((userId, r.provider).1);
    }
    forall p | StoredKey(env, t, userId, p).Some?
      ensures DecryptedKey(p, StoredKey(env, t, userId, p).value) in DecryptedKeys(env, t, userId)
    {
      DecryptedRowsAreKept(env, rows, Row(p, t[(userId, p)]));
    }
  }

  lemma OneRowOneKey(env: Env, userId: string, provider: Provider, row: Bytes, key: Bytes)
    requires IsValid(provider) && Decrypt(env.gcm, row, env.masterKey) == Ok(key)
    ensures DecryptedKeys(env, map[(userId, provider) := row], userId) == [DecryptedKey(provider, key)]
  {
    hide Decrypt, DecryptedKeys, IsValid;
    var t: Table := map[(userId, provider) := row];
    DecryptedKeysAreStored(env, t, userId);
    var keys := DecryptedKeys(env, t, userId);
    assert StoredKey(env, t, userId, provider) == Some(key);
    assert DecryptedKey(provider, key) in keys;
    forall k | k in keys
      ensures k == DecryptedKey(provider, key)
    {
      assert StoredKey(env, t, userId, k.provider) == Some(k.rawKey);
    }
    assert keys[0] in keys && keys[|keys| - 1] in keys;
  }

  // ---- Listing models ------------------------------------------------------------------------------

  /** The cache after some keys of a user have been handled, and the models collected. */
  datatype Discovery = Discovery(cache: View, models: Models)

  /** Successive readings of the clock: key number `i` is looked up at `2 * i` and stored at `2 * i + 1`. */
  type Clock = nat -> int

  /** One round of the cache-or-fetch loop. */
  function DiscoverKey(env: Env, d: Discovery, userId: string, k: DecryptedKey, refresh: bool, http: Http,
                       readAt: int, setAt: int): Discovery
  {
    var cached := Answer(d.cache, userId, k.provider, readAt);
    if !refresh && cached.Some? then Discovery(d.cache, d.models + cached.value)
    else match Fetch(http, k.provider, k.rawKey)
         case None => d
         case Some(models) =>
           Discovery(Stored(d.cache, userId, k.provider, Entry(models, setAt + env.ttl, k.rawKey)), d.models + models)
  }

  function Discover(env: Env, c: View, userId: string, keys: seq<DecryptedKey>, refresh: bool, http: Http, clock: Clock)
    : Discovery
  {
    if keys == [] then Discovery(c, [])
    else
      var i := |keys| - 1;
      DiscoverKey(env, Discover(env, c, userId, keys[..i], refresh, http, clock),
                  userId, keys[i], refresh, http, clock(2 * i), clock(2 * i + 1))
  }

  function Providers(keys: seq<DecryptedKey>): (providers: seq<Provider>)
    ensures |providers| == |keys|
    ensures forall i | 0 <= i < |keys| :: providers[i] == keys[i].provider
  {
    seq(|keys|, i requires 0 <= i < |keys| => keys[i].provider)
  }

  /** Active are the providers with a stored key that decrypts, in order. */
  ghost predicate ActiveProviders(env: Env, t: Table, userId: string, providers: seq<Provider>)
  {
    && (forall i, j | 0 <= i < j < |providers| :: Less(providers[i], providers[j]))
    && (forall p | p in providers :: StoredKey(env, t, userId, p).Some?)
    && (forall p | IsValid(p) && StoredKey(env, t, userId, p).Some? :: p in providers)
  }

  lemma ProvidersAreActive(env: Env, t: Table, userId: string)
    requires ValidTable(t)
    ensures ActiveProviders(env, t, userId, Providers(DecryptedKeys(env, t, userId)))
  {
    hide DecryptedKeys, StoredKey, Less, IsValid, ValidTable;
    DecryptedKeysAreStored(env, t, userId);
    var keys := DecryptedKeys(env, t, userId);
    forall p | IsValid(p) && StoredKey(env, t, userId, p).Some?
      ensures p in Providers(keys)
    {
      var k := DecryptedKey(p, StoredKey(env, t, userId, p).value);
      var i :| 0 <= i < |keys| && keys[i] == k;
      assert Providers(keys)[i] == p;
    }
    forall p | p in Providers(keys)
      ensures StoredKey(env, t, userId, p).Some?
    {
      var i :| 0 <= i < |keys| && Providers(keys)[i] == p;
      assert keys[i] in keys;
    }
  }

  /** The cache `GetAvailableModels` leaves and the models it returns. */
  function Available(env: Env, w: World, userId: string, refresh: bool, http: Http, clock: Clock): Discovery
  {
    Discover(env, w.cache, userId, DecryptedKeys(env, w.table, userId), refresh, http, clock)
  }

  // ---- Runs ----------------------------------------------------------------------------------------

  /** A request served from start to end, with what the database, the providers and the clock did to it. */
  datatype Request =
    | RegisterKey(userId: string, provider: Provider, apiKey: Bytes, http: Http, random: Bytes, dbOk: bool)
    | DeleteKey(userId: string, provider: Provider, dbOk: bool)
    | ListModels(userId: string, refresh: bool, http: Http, clock: Clock, dbOk: bool)
    | PurgeCache(userId: string)
    | SweepCache(now: int)

  function Serve(env: Env, w: World, q: Request): World
  {
    match q
    case RegisterKey(u, p, apiKey, http, random, dbOk) => Register(w, u, p, Registration(env, p, apiKey, http, random, dbOk))
    case DeleteKey(u, p, dbOk) => Delete(w, u, p, Deletion(w, u, p, dbOk))
    case ListModels(u, refresh, http, clock, dbOk) =>
      if dbOk then w.(cache := Available(env, w, u, refresh, http, clock).cache) else w
    case PurgeCache(u) => w.(cache := UserPurged(w.cache, u))
    case SweepCache(now) => w.(cache := Swept(w.cache, now))
  }

  function ServeAll(env: Env, w: World, run: seq<Request>): World
  {
    if run == [] then w else Serve(env, ServeAll(env, w, run[..|run| - 1]), run[|run| - 1])
  }
}
