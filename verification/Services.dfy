/**
  The two services over the shared repository and cache. Each method is proved against the step it
  takes on the value of both; database, providers, randomness and clock come in as arguments.
 */
module Services {
  import opened Accounts
  import opened Cipher
  import opened GoBytes
  import opened KeyTable
  import opened MemoryCaches
  import opened ModelCache
  import opened Registry
  import opened Wrappers

  datatype ReadError = Unregistered | Undecryptable(error: CipherError) | ReadFailed

  class UserAPIKeyService {
    const env: Env
    const repo: UserAPIKeyRepository
    const cache: MemoryCache

    constructor (env: Env, repo: UserAPIKeyRepository, cache: MemoryCache)
      ensures this.env == env && this.repo == repo && this.cache == cache
    {
      this.env := env;
      this.repo := repo;
      this.cache := cache;
    }

    ghost function State(): World
      reads repo, cache, cache.Slices()
    {
      World(repo.table, cache.Entries())
    }

    /** `ValidateKey`: a key is good if it lists some model. */
    method ValidateKey(http: Http, provider: Provider, apiKey: Bytes) returns (ok: bool)
      ensures ok <==> Fetch(http, provider, apiKey).Some? && Fetch(http, provider, apiKey).value != []
    {
      var models := FetchModels(http, provider, apiKey);
      ok := models != null && models.Length > 0;
      assert models != null ==> |models[..]| == models.Length;
    }

    /** `RegisterKey` up to the database: checks, probe and encryption. */
    method ProbeAndEncrypt(provider: Provider, apiKey: Bytes, http: Http, random: Bytes)
      returns (r: Result<Bytes, ServiceError>)
      ensures r == Registration(env, provider, apiKey, http, random, true)
    {
      hide TrimSpace, Fetch, Encrypt, Decrypt, IsValid;
      var key := TrimSpace(apiKey);
      if !IsValid(provider) {
        return Err(ValidationFailed);
      }
      if key == [] {
        return Err(ValidationFailed);
      }
      var probed := ValidateKey(http, provider, key);
      if !probed {
        return Err(ValidationFailed);
      }
      var encrypted := EncryptWithBytes(env.gcm, key, env.masterKey, random);
      r := if encrypted.Ok? then Ok(encrypted.value) else Err(EncryptFailed);
    }

    method RegisterKey(userId: string, provider: Provider, apiKey: Bytes, http: Http, random: Bytes, dbOk: bool)
      returns (r: Result<Row, ServiceError>)
      modifies repo, cache
      ensures var stored := Registration(env, provider, apiKey, http, random, dbOk);
              && State() == Register(old(State()), userId, provider, stored)
              && r == match stored case Ok(e) => Ok(Row(provider, e)) case Err(e) => Err(e)
      ensures cache.Slices() <= old(cache.Slices())
      ensures RegistrationEnds(env, provider, apiKey, http, random, dbOk,
                               if r.Ok? then Ok(r.value.encryptedKey) else Err(r.error))
      ensures r.Ok? ==>
                && r.value.provider == provider
                && repo.table == old(repo.table)[(userId, provider) := r.value.encryptedKey]
                && cache.items == old(cache.items) - {userId + ":" + provider}
      ensures r.Err? ==> repo.table == old(repo.table) && cache.items == old(cache.items)
    {
      hide CacheKey, RegistrationEnds, Registration;
      RegistrationOutcome(env, provider, apiKey, http, random, dbOk);
      RegistrationSaves(env, provider, apiKey, http, random, dbOk);
      var encrypted := ProbeAndEncrypt(provider, apiKey, http, random);
      if encrypted.Err? {
        return Err(encrypted.error);
      }
      var saved := repo.Upsert(userId, provider, encrypted.value, dbOk);
      if saved.Err? {
        return Err(SaveFailed);
      }
      cache.Purge(userId, provider);
      r := Ok(Row(provider, encrypted.value));
    }

    method DeleteKey(userId: string, provider: Provider, dbOk: bool) returns (r: Result<(), ServiceError>)
      modifies repo, cache
      ensures r == Deletion(old(State()), userId, provider, dbOk)
      ensures State() == Delete(old(State()), userId, provider, r)
      ensures r == Err(ValidationFailed) <==> !IsValid(provider)
      ensures r == Err(DatabaseFailed) <==> IsValid(provider) && !dbOk
      ensures r == Err(KeyNotFound) <==> IsValid(provider) && dbOk && (userId, provider) !in old(repo.table)
      ensures r.Ok? <==> IsValid(provider) && dbOk && (userId, provider) in old(repo.table)
      ensures r.Ok? ==>
                && repo.table == old(repo.table) - {(userId, provider)}
                && cache.items == old(cache.items) - {userId + ":" + provider}
      ensures r.Err? ==> repo.table == old(repo.table) && cache.items == old(cache.items)
      ensures cache.Slices() <= old(cache.Slices())
    {
      if !IsValid(provider) {
        return Err(ValidationFailed);
      }
      var deleted := repo.DeleteByProvider(userId, provider, dbOk);
      if deleted.Err? {
        return Err(if deleted.error == RecordNotFound then KeyNotFound else DatabaseFailed);
      }
      cache.Purge(userId, provider);
      r := Ok(());
    }

    method GetDecryptedKey(userId: string, provider: Provider, dbOk: bool) returns (r: Result<Bytes, ReadError>)
      ensures r.Ok? <==> dbOk && StoredKey(env, repo.table, userId, provider).Some?
      ensures r.Ok? ==> StoredKey(env, repo.table, userId, provider) == Some(r.value)
      ensures r.Ok? ==> && (userId, provider) in repo.table
                        && Decrypt(env.gcm, repo.table[(userId, provider)], env.masterKey) == Ok(r.value)
      ensures r == Err(Unregistered) <==> dbOk && (userId, provider) !in repo.table
      ensures r == Err(ReadFailed) <==> !dbOk
    {
      hide Decrypt;
      var record := repo.GetByProvider(userId, provider, dbOk);
      if record.Err? {
        return Err(ReadFailed);
      }
      if record.value.None? {
        return Err(Unregistered);
      }
      match Decrypt(env.gcm, record.value.value.encryptedKey, env.masterKey)
      case Ok(key) => r := Ok(key);
      case Err(e) => r := Err(Undecryptable(e));
    }

    /** Rows that do not decrypt are skipped. */
    method GetDecryptedKeys(userId: string, dbOk: bool) returns (r: Result<seq<DecryptedKey>, ReadError>)
      ensures r == if dbOk then Ok(DecryptedKeys(env, repo.table, userId)) else Err(ReadFailed)
      ensures r.Ok? && ValidTable(repo.table) ==>
                && SortedKeys(r.value)
                && forall k :: k in r.value <==> StoredKey(env, repo.table, userId, k.provider) == Some(k.rawKey)
    {
      hide Decrypt, RowsOf;
      var records := repo.ListByUserID(userId, dbOk);
      if records.Err? {
        return Err(ReadFailed);
      }
      var rows := records.value;
      var keys: seq<DecryptedKey> := [];
      for i := 0 to |rows|
        invariant keys == DecryptRows(env, rows[..i])
      {
        assert rows[..i + 1][..i] == rows[..i];
        match Decrypt(env.gcm, rows[i].encryptedKey, env.masterKey)
        case Ok(rawKey) => keys := keys + [DecryptedKey(rows[i].provider, rawKey)];
        case Err(_) =>
      }
      assert rows[..|rows|] == rows;
      if ValidTable(repo.table) {
        DecryptedKeysAreStored(env, repo.table, userId);
      }
      r := Ok(keys);
    }
  }

  /** `append(all, more...)` into room of its own. */
  method AppendModels(all: array<AIModel>, more: array<AIModel>) returns (both: array<AIModel>)
    ensures fresh(both) && both[..] == all[..] + more[..]
  {
    both := new AIModel[all.Length + more.Length](i requires 0 <= i < all.Length + more.Length reads all, more =>
      if i < all.Length then all[i] else more[i - all.Length]);
    assert both[..] == all[..] + more[..];
  }

  class AIModelService {
    const keyService: UserAPIKeyService

    constructor (keyService: UserAPIKeyService)
      ensures this.keyService == keyService
    {
      this.keyService := keyService;
    }

    /** One round: append the cached list, or fetch, keep and append. */
    method HandleKey(userId: string, k: DecryptedKey, refresh: bool, http: Http, readAt: int, setAt: int,
                     all: array<AIModel>)
      returns (allModels: array<AIModel>)
      requires keyService.cache.ttl == keyService.env.ttl && all !in keyService.cache.Slices()
      modifies keyService.cache
      ensures Discovery(keyService.cache.Entries(), allModels[..])
              == DiscoverKey(keyService.env, Discovery(old(keyService.cache.Entries()), old(all[..])),
                             userId, k, refresh, http, readAt, setAt)
      ensures allModels == all || fresh(allModels)
      ensures allModels !in keyService.cache.Slices()
    {
      hide Fetch, Answer, Stored, ListsAnswer, NoAnswer, TrimSpace;
      var cache := keyService.cache;
      allModels := all;
      var cached: array?<AIModel> := null;
      if !refresh {
        cached := cache.Get(userId, k.provider, readAt);
      }
      if cached != null {
        allModels := AppendModels(all, cached);
        return;
      }
      var models := FetchModels(http, k.provider, k.rawKey);
      if models != null {
        cache.Set(userId, k.provider, models, setAt, k.rawKey);
        allModels := AppendModels(all, models);
      }
    }

    /** Cache or fetch, key by key. The cache keeps the fetched slices; the answer has its own. */
    method GetAvailableModels(userId: string, refresh: bool, http: Http, clock: Clock, dbOk: bool)
      returns (r: Result<(array<AIModel>, seq<Provider>), ReadError>)
      requires keyService.cache.ttl == keyService.env.ttl
      modifies keyService.cache
      ensures r.Ok? <==> dbOk
      ensures r.Ok? ==>
                var found := Available(keyService.env, old(keyService.State()), userId, refresh, http, clock);
                && r.value.0[..] == found.models
                && r.value.1 == Providers(DecryptedKeys(keyService.env, old(keyService.State()).table, userId))
                && keyService.State() == old(keyService.State()).(cache := found.cache)
                && fresh(r.value.0) && r.value.0 !in keyService.cache.Slices()
      ensures r.Ok? && ValidTable(keyService.repo.table) ==>
                ActiveProviders(keyService.env, keyService.repo.table, userId, r.value.1)
      ensures r.Err? ==> keyService.State() == old(keyService.State())
    {
      hide DecryptedKeys, DiscoverKey, Providers, SortedKeys, ValidTable, StoredKey, ActiveProviders;
      var listed := keyService.GetDecryptedKeys(userId, dbOk);
      if listed.Err? {
        return Err(ReadFailed);
      }
      var keys := listed.value;
      ghost var start := keyService.cache.Entries();
      var allModels := new AIModel[0];
      var activeProviders: seq<Provider> := [];
      for i := 0 to |keys|
        invariant fresh(allModels) && allModels !in keyService.cache.Slices()
        invariant activeProviders == Providers(keys[..i])
        invariant Discovery(keyService.cache.Entries(), allModels[..])
                  == Discover(keyService.env, start, userId, keys[..i], refresh, http, clock)
      {
        assert keys[..i + 1][..i] == keys[..i];
        activeProviders := activeProviders + [keys[i].provider];
        assert activeProviders == Providers(keys[..i + 1]);
        allModels := HandleKey(userId, keys[i], refresh, http, clock(2 * i), clock(2 * i + 1), allModels);
      }
      assert keys[..|keys|] == keys;
      if ValidTable(keyService.repo.table) {
        ProvidersAreActive(keyService.env, keyService.repo.table, userId);
      }
      r := Ok((allModels, activeProviders));
    }
  }
}
