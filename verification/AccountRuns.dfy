/** What every serial run of requests keeps true of the key table and the model cache. */
module AccountRuns {
  import opened Accounts
  import opened Cipher
  import opened GoBytes
  import opened KeyTable
  import opened ModelCache
  import opened Registry
  import opened Wrappers

  /** A property of a list fetched from a provider with a key. */
  type Claim = (Provider, Bytes, Models) -> bool

  /** Whatever is fetched, at any time, meets the claim. */
  ghost predicate Meets(http: Http, q: Claim)
  {
    forall p, key :: Fetch(http, p, key).Some? ==> q(p, key, Fetch(http, p, key).value)
  }

  function HttpOf(q: Request): Option<Http>
  {
    match q
    case RegisterKey(_, _, _, http, _, _) => Some(http)
    case ListModels(_, _, http, _, _) => Some(http)
    case _ => None
  }

  ghost predicate RunMeets(run: seq<Request>, q: Claim)
  {
    forall r | r in run && HttpOf(r).Some? :: Meets(HttpOf(r).value, q)
  }

  // ---- Cached lists belong to stored keys ----------------------------------------------------------

  /** If the pair is cached, its list was fetched with the key now stored for it, and meets the claim. */
  ghost predicate FreshPair(env: Env, w: World, q: Claim, u: string, p: Provider)
  {
    var k := CacheKey(u, p);
    k in w.cache ==>
      && StoredKey(env, w.table, u, p) == Some(w.cache[k].fetchedWith)
      && q(p, w.cache[k].fetchedWith, w.cache[k].models)
  }

  ghost predicate Fresh(env: Env, w: World, q: Claim)
  {
    ValidTable(w.table) && forall u, p | IsValid(p) :: FreshPair(env, w, q, u, p)
  }

  lemma RegisterKeepsFresh(env: Env, w: World, q: Claim, u: string, p: Provider, r: Result<Bytes, ServiceError>)
    requires Fresh(env, w, q) && (r.Ok? ==> IsValid(p))
    ensures Fresh(env, Register(w, u, p, r), q)
  {
    hide IsValid, Decrypt, CacheKey;
    var w' := Register(w, u, p, r);
    forall u', p' | IsValid(p')
      ensures FreshPair(env, w', q, u', p')
    {
      assert FreshPair(env, w, q, u', p');
      if r.Ok? {
        CacheKeyInjective(u, p, u', p');
      }
    }
  }

  lemma DeleteKeepsFresh(env: Env, w: World, q: Claim, u: string, p: Provider, r: Result<(), ServiceError>)
    requires Fresh(env, w, q) && (r.Ok? ==> IsValid(p))
    ensures Fresh(env, Delete(w, u, p, r), q)
  {
    hide IsValid, Decrypt, CacheKey;
    var w' := Delete(w, u, p, r);
    forall u', p' | IsValid(p')
      ensures FreshPair(env, w', q, u', p')
    {
      assert FreshPair(env, w, q, u', p');
      if r.Ok? {
        CacheKeyInjective(u, p, u', p');
      }
    }
  }

  lemma DiscoverKeyKeepsFresh(env: Env, t: Table, q: Claim, d: Discovery, u: string, k: DecryptedKey,
                              refresh: bool, http: Http, readAt: int, setAt: int)
    requires Fresh(env, World(t, d.cache), q) && Meets(http, q)
    requires IsValid(k.provider) && StoredKey(env, t, u, k.provider) == Some(k.rawKey)
    ensures Fresh(env, World(t, DiscoverKey(env, d, u, k, refresh, http, readAt, setAt).cache), q)
  {
    hide IsValid, StoredKey, CacheKey, Fetch;
    var d' := DiscoverKey(env, d, u, k, refresh, http, readAt, setAt);
    forall u', p' | IsValid(p')
      ensures FreshPair(env, World(t, d'.cache), q, u', p')
    {
      assert FreshPair(env, World(t, d.cache), q, u', p');
      CacheKeyInjective(u, k.provider, u', p');
    }
  }

  lemma {:induction false} DiscoverKeepsFresh(env: Env, w: World, q: Claim, u: string, keys: seq<DecryptedKey>,
                                              refresh: bool, http: Http, clock: Clock)
    requires Fresh(env, w, q) && Meets(http, q)
    requires forall k | k in keys :: IsValid(k.provider) && StoredKey(env, w.table, u, k.provider) == Some(k.rawKey)
    ensures Fresh(env, World(w.table, Discover(env, w.cache, u, keys, refresh, http, clock).cache), q)
  {
    hide IsValid, StoredKey, Fresh, Meets, DiscoverKey;
    if keys == [] {
      assert World(w.table, w.cache) == w;
    } else {
      var i := |keys| - 1;
      DiscoverKeepsFresh(env, w, q, u, keys[..i], refresh, http, clock);
      DiscoverKeyKeepsFresh(env, w.table, q, Discover(env, w.cache, u, keys[..i], refresh, http, clock), u, keys[i],
                            refresh, http, clock(2 * i), clock(2 * i + 1));
    }
  }

  lemma ServeKeepsFresh(env: Env, w: World, q: Claim, r: Request)
    requires Fresh(env, w, q)
    requires HttpOf(r).Some? ==> Meets(HttpOf(r).value, q)
    ensures Fresh(env, Serve(env, w, r), q)
  {
    match r
    case RegisterKey(u, p, apiKey, http, random, dbOk) =>
      RegisterKeepsFresh(env, w, q, u, p, Registration(env, p, apiKey, http, random, dbOk));
    case DeleteKey(u, p, dbOk) =>
      DeleteKeepsFresh(env, w, q, u, p, Deletion(w, u, p, dbOk));
    case ListModels(u, refresh, http, clock, dbOk) =>
      hide IsValid, StoredKey, DecryptedKeys, Discover, Meets;
      DecryptedKeysAreStored(env, w.table, u);
      DiscoverKeepsFresh(env, w, q, u, DecryptedKeys(env, w.table, u), refresh, http, clock);
    case PurgeCache(u) => FewerEntriesKeepFresh(env, w, q, UserPurged(w.cache, u));
    case SweepCache(now) => FewerEntriesKeepFresh(env, w, q, Swept(w.cache, now));
  }

  lemma FewerEntriesKeepFresh(env: Env, w: World, q: Claim, cache: View)
    requires Fresh(env, w, q)
    requires forall k | k in cache :: k in w.cache && cache[k] == w.cache[k]
    ensures Fresh(env, w.(cache := cache), q)
  {
    hide StoredKey, IsValid;
    forall u, p | IsValid(p)
      ensures FreshPair(env, w.(cache := cache), q, u, p)
    {
      assert FreshPair(env, w, q, u, p);
    }
  }

  /** From any table and an empty cache, every run of requests leaves only lists of stored keys in the cache. */
  lemma {:induction false} RunsKeepFresh(env: Env, table: Table, run: seq<Request>, q: Claim)
    requires ValidTable(table) && RunMeets(run, q)
    ensures Fresh(env, ServeAll(env, World(table, map[]), run), q)
  {
    hide Serve, ValidTable;
    if run == [] {
    } else {
      var init := run[..|run| - 1];
      RunsKeepFresh(env, table, init, q);
      ServeKeepsFresh(env, ServeAll(env, World(table, map[]), init), q, run[|run| - 1]);
    }
  }

  /** No entry without a stored key, and none fetched with another key. */
  lemma CacheFollowsKeys(env: Env, table: Table, run: seq<Request>, u: string, p: Provider)
    requires ValidTable(table) && IsValid(p)
    ensures var w := ServeAll(env, World(table, map[]), run);
            CacheKey(u, p) in w.cache ==> StoredKey(env, w.table, u, p) == Some(w.cache[CacheKey(u, p)].fetchedWith)
  {
    hide StoredKey, ServeAll, IsValid;
    var any: Claim := (p, key, models) => true;
    RunsKeepFresh(env, table, run, any);
    assert FreshPair(env, ServeAll(env, World(table, map[]), run), any, u, p);
  }

  // ---- Listing models, key by key ------------------------------------------------------------------

  /** Both caches hold the same for the pair. */
  predicate SamePair(c: View, d: View, u: string, p: Provider)
  {
    var k := CacheKey(u, p);
    (k in c <==> k in d) && (k in c ==> c[k] == d[k])
  }

  lemma SamePairAnswers(c: View, d: View, u: string, p: Provider, now: int)
    requires SamePair(c, d, u, p)
    ensures Answer(c, u, p, now) == Answer(d, u, p, now)
  {
  }

  /** What one key adds to the answer, looking only at the cache before the request. */
  function Contribution(c: View, u: string, k: DecryptedKey, refresh: bool, http: Http, now: int): Models
  {
    var cached := Answer(c, u, k.provider, now);
    if !refresh && cached.Some? then cached.value
    else match Fetch(http, k.provider, k.rawKey)
         case Some(models) => models
         case None => []
  }

  function Contributions(c: View, u: string, keys: seq<DecryptedKey>, refresh: bool, http: Http, clock: Clock): Models
  {
    if keys == [] then []
    else
      var i := |keys| - 1;
      Contributions(c, u, keys[..i], refresh, http, clock) + Contribution(c, u, keys[i], refresh, http, clock(2 * i))
  }

  /** Handling some keys of a user touches nothing cached for other users and providers. */
  lemma {:induction false} DiscoverLeavesOthers(env: Env, c: View, v: string, keys: seq<DecryptedKey>, refresh: bool,
                                                http: Http, clock: Clock, u: string, p: Provider)
    requires IsValid(p) && forall k | k in keys :: IsValid(k.provider) && (u != v || k.provider != p)
    ensures SamePair(c, Discover(env, c, v, keys, refresh, http, clock).cache, u, p)
  {
    hide IsValid, Fetch, Answer, CacheKey;
    if keys == [] {
    } else {
      DiscoverLeavesOthers(env, c, v, keys[..|keys| - 1], refresh, http, clock, u, p);
      CacheKeyInjective(u, p, v, keys[|keys| - 1].provider);
    }
  }

  /** The loop, which changes the cache as it goes, collects the contributions of the keys in order. */
  lemma {:induction false} DiscoverCollects(env: Env, c: View, u: string, keys: seq<DecryptedKey>, refresh: bool,
                                            http: Http, clock: Clock)
    requires DistinctProviders(keys) && forall k | k in keys :: IsValid(k.provider)
    ensures Discover(env, c, u, keys, refresh, http, clock).models == Contributions(c, u, keys, refresh, http, clock)
  {
    hide IsValid, Fetch, Answer, SamePair;
    if keys == [] {
    } else {
      var n := |keys| - 1;
      var init, last := keys[..n], keys[n];
      DiscoverCollects(env, c, u, init, refresh, http, clock);
      forall k | k in init
        ensures IsValid(k.provider) && k.provider != last.provider
      {
        var i :| 0 <= i < |init| && init[i] == k;
        assert keys[i].provider != keys[n].provider;
      }
      DiscoverLeavesOthers(env, c, u, init, refresh, http, clock, u, last.provider);
      SamePairAnswers(c, Discover(env, c, u, init, refresh, http, clock).cache, u, last.provider, clock(2 * n));
    }
  }

  // ---- The cache against recomputation -------------------------------------------------------------

  /** Each provider's answer to a key is fixed: a fetch that succeeds gives that list. */
  type Catalogue = (Provider, Bytes) -> Models

  function InCatalogue(cat: Catalogue): Claim
  {
    (p, key, models) => models == cat(p, key)
  }

  /** The lists of all keys, one after the other. */
  function Listed(cat: Catalogue, keys: seq<DecryptedKey>): Models
  {
    if keys == [] then []
    else Listed(cat, keys[..|keys| - 1]) + cat(keys[|keys| - 1].provider, keys[|keys| - 1].rawKey)
  }

  /** The key's fetch fails although a live, non-empty entry is cached. */
  predicate Masked(c: View, u: string, cat: Catalogue, k: DecryptedKey, http: Http, now: int)
  {
    Fetch(http, k.provider, k.rawKey).None? && Answer(c, u, k.provider, now).Some? && cat(k.provider, k.rawKey) != []
  }

  lemma ContributionIs(env: Env, w: World, u: string, cat: Catalogue, k: DecryptedKey, refresh: bool, http: Http, now: int)
    requires Fresh(env, w, InCatalogue(cat)) && Meets(http, InCatalogue(cat))
    requires IsValid(k.provider) && StoredKey(env, w.table, u, k.provider) == Some(k.rawKey)
    ensures Contribution(w.cache, u, k, refresh, http, now) ==
            if Fetch(http, k.provider, k.rawKey).Some? || (!refresh && Answer(w.cache, u, k.provider, now).Some?)
            then cat(k.provider, k.rawKey) else []
  {
    hide IsValid, StoredKey, Fetch;
    assert FreshPair(env, w, InCatalogue(cat), u, k.provider);
  }

  /** Using the cache can only add lists that a failed fetch lost. */
  lemma {:induction false} ContributionsAgree(env: Env, w: World, u: string, cat: Catalogue, keys: seq<DecryptedKey>,
                                              http: Http, clock: Clock)
    requires Fresh(env, w, InCatalogue(cat)) && Meets(http, InCatalogue(cat))
    requires forall k | k in keys :: IsValid(k.provider) && StoredKey(env, w.table, u, k.provider) == Some(k.rawKey)
    ensures var cached := Contributions(w.cache, u, keys, false, http, clock);
            var fetched := Contributions(w.cache, u, keys, true, http, clock);
            && |cached| >= |fetched|
            && (cached == fetched <==> forall i: nat | i < |keys| :: !Masked(w.cache, u, cat, keys[i], http, clock(2 * i)))
  {
    hide IsValid, StoredKey, Fetch, Fresh, Meets, Contribution, Answer;
    if keys == [] {
    } else {
      var n := |keys| - 1;
      var init, last := keys[..n], keys[n];
      ContributionsAgree(env, w, u, cat, init, http, clock);
      ContributionIs(env, w, u, cat, last, false, http, clock(2 * n));
      ContributionIs(env, w, u, cat, last, true, http, clock(2 * n));
      var cached, fetched := Contributions(w.cache, u, init, false, http, clock), Contributions(w.cache, u, init, true, http, clock);
      var cachedLast := Contribution(w.cache, u, last, false, http, clock(2 * n));
      var fetchedLast := Contribution(w.cache, u, last, true, http, clock(2 * n));
      SameConcat(cached, cachedLast, fetched, fetchedLast);
      assert cachedLast == fetchedLast <==> !Masked(w.cache, u, cat, last, http, clock(2 * n));
      AllButAlso(w.cache, u, cat, keys, http, clock);
    }
  }

  lemma AllButAlso(c: View, u: string, cat: Catalogue, keys: seq<DecryptedKey>, http: Http, clock: Clock)
    requires keys != []
    ensures var n := |keys| - 1;
            (forall i: nat | i < |keys| :: !Masked(c, u, cat, keys[i], http, clock(2 * i)))
            <==> (forall i: nat | i < n :: !Masked(c, u, cat, keys[..n][i], http, clock(2 * i)))
                 && !Masked(c, u, cat, keys[n], http, clock(2 * n))
  {
    hide Masked;
    assert forall i: nat | i < |keys| - 1 :: keys[..|keys| - 1][i] == keys[i];
  }

  lemma SameConcat(a: Models, b: Models, c: Models, d: Models)
    requires |a| >= |c| && |b| >= |d|
    ensures a + b == c + d <==> a == c && b == d
  {
    if a + b == c + d {
      assert |a| == |c|;
      assert a == (a + b)[..|a|] == (c + d)[..|c|] == c;
      assert b == (a + b)[|a|..] == (c + d)[|c|..] == d;
    }
  }

  /**
    After any serial run over fixed catalogues, a listing from the cache equals a refreshed one exactly
    when no key has a live, non-empty entry whose fetch now fails.
   */
  lemma {:induction false} CacheAgreesExactly(env: Env, table: Table, run: seq<Request>, cat: Catalogue, u: string, http: Http, clock: Clock)
    requires ValidTable(table) && RunMeets(run, InCatalogue(cat)) && Meets(http, InCatalogue(cat))
    ensures var w := ServeAll(env, World(table, map[]), run);
            var keys := DecryptedKeys(env, w.table, u);
            Available(env, w, u, false, http, clock).models == Available(env, w, u, true, http, clock).models
            <==> forall i: nat | i < |keys| :: !Masked(w.cache, u, cat, keys[i], http, clock(2 * i))
  {
    hide IsValid, StoredKey, Fetch, Fresh, Meets, RunMeets, Contributions, Answer, ServeAll, Discover, DecryptedKeys, Masked;
    RunsKeepFresh(env, table, run, InCatalogue(cat));
    var w := ServeAll(env, World(table, map[]), run);
    FreshTableIsValid(env, w, InCatalogue(cat));
    DecryptedKeysAreStored(env, w.table, u);
    var keys := DecryptedKeys(env, w.table, u);
    DiscoverCollects(env, w.cache, u, keys, false, http, clock);
    DiscoverCollects(env, w.cache, u, keys, true, http, clock);
    ContributionsAgree(env, w, u, cat, keys, http, clock);
  }

  lemma FreshTableIsValid(env: Env, w: World, q: Claim)
    requires Fresh(env, w, q)
    ensures ValidTable(w.table)
  {
  }

  lemma {:induction false} ContributionsAreListed(env: Env, w: World, u: string, cat: Catalogue, keys: seq<DecryptedKey>,
                                                  refresh: bool, http: Http, clock: Clock)
    requires Fresh(env, w, InCatalogue(cat)) && Meets(http, InCatalogue(cat))
    requires forall k | k in keys :: IsValid(k.provider) && StoredKey(env, w.table, u, k.provider) == Some(k.rawKey)
    requires forall k | k in keys :: Fetch(http, k.provider, k.rawKey).Some?
    ensures Contributions(w.cache, u, keys, refresh, http, clock) == Listed(cat, keys)
  {
    hide IsValid, StoredKey, Fetch, Fresh, Meets, Contribution, Answer;
    if keys == [] {
    } else {
      var n := |keys| - 1;
      ContributionsAreListed(env, w, u, cat, keys[..n], refresh, http, clock);
      ContributionIs(env, w, u, cat, keys[n], refresh, http, clock(2 * n));
    }
  }

  /** Every provider answers every key with one model that all filters keep. */
  const WORKING: Http := Http(_ => Some([OpenRouterEntry("gpt-x", "", "", 0)]), _ => Some([OpenAIEntry("gpt-x")]),
                              _ => Some([AnthropicEntry("gpt-x", "")]), _ => Some([GoogleEntry("gpt-x", "", "", 0, [GENERATE])]))

  const DOWN: Http := Http(_ => None, _ => None, _ => None, _ => None)

  const ONE_MODEL: Catalogue := (p, key) => if Fetch(WORKING, p, key).Some? then Fetch(WORKING, p, key).value else []

  lemma MapsOne<A>(f: A -> Option<AIModel>, e: A)
    requires f(e).Some?
    ensures FilterMap(f, [e]) != []
  {
    assert [e][..0] == [];
  }

  lemma WorkingFetches(p: Provider, key: Bytes)
    requires IsValid(p) && TrimSpace(key) != []
    ensures Fetch(WORKING, p, key).Some? && Fetch(WORKING, p, key).value != []
  {
    hide TrimSpace, FilterMap;
    MapsOne(FromOpenRouter, OpenRouterEntry("gpt-x", "", "", 0));
    assert "gpt-" == "gpt-x"[..4];
    MapsOne(FromOpenAI, OpenAIEntry("gpt-x"));
    MapsOne(FromAnthropic, AnthropicEntry("gpt-x", ""));
    MapsOne(FromGoogle, GoogleEntry("gpt-x", "", "", 0, [GENERATE]));
  }

  /** The first listing of a user with one key caches what it fetched. */
  lemma FirstListing(env: Env, u: string, p: Provider, row: Bytes, key: Bytes, http: Http, clock: Clock)
    requires IsValid(p) && Decrypt(env.gcm, row, env.masterKey) == Ok(key) && Fetch(http, p, key).Some?
    ensures Available(env, World(map[(u, p) := row], map[]), u, false, http, clock).cache
            == map[CacheKey(u, p) := Entry(Fetch(http, p, key).value, clock(1) + env.ttl, key)]
  {
    hide Decrypt, DecryptedKeys, Fetch, IsValid, CacheKey;
    OneRowOneKey(env, u, p, row, key);
    var keys := [DecryptedKey(p, key)];
    assert keys[..0] == [];
    assert Discover(env, map[], u, keys[..0], false, http, clock) == Discovery(map[], []);
  }

  lemma RegisterFirst(env: Env, u: string, p: Provider, apiKey: Bytes, random: Bytes)
    requires IsValid(p) && TrimSpace(apiKey) != [] && AesKey(env.masterKey) && |random| >= NONCE_SIZE
    ensures var stored := Registration(env, p, apiKey, WORKING, random, true);
            && stored.Ok? && Decrypt(env.gcm, stored.value, env.masterKey) == Ok(TrimSpace(apiKey))
            && Register(World(map[], map[]), u, p, stored) == World(map[(u, p) := stored.value], map[])
  {
    hide TrimSpace, IsValid, Fetch, Decrypt, CacheKey;
    TrimSpaceTwice(apiKey);
    WorkingFetches(p, TrimSpace(apiKey));
    DecryptEncrypted(env.gcm, TrimSpace(apiKey), env.masterKey, random);
  }

  /** For every user, provider and key: once a list is cached, a provider that fails makes the two answers differ. */
  lemma CacheHidesFailedFetch(env: Env, u: string, p: Provider, apiKey: Bytes, random: Bytes, clock: Clock, later: Clock)
    requires IsValid(p) && TrimSpace(apiKey) != [] && AesKey(env.masterKey) && |random| >= NONCE_SIZE
    requires later(0) <= clock(1) + env.ttl
    ensures var run := [RegisterKey(u, p, apiKey, WORKING, random, true)] + [ListModels(u, false, WORKING, clock, true)];
            var w := ServeAll(env, World(map[], map[]), run);
            && RunMeets(run, InCatalogue(ONE_MODEL)) && Meets(DOWN, InCatalogue(ONE_MODEL))
            && Available(env, w, u, false, DOWN, later).models != Available(env, w, u, true, DOWN, later).models
  {
    hide TrimSpace, IsValid, Decrypt, CacheKey, Registration, Register, Discover, DecryptedKeys, FilterMap;
    var run := [RegisterKey(u, p, apiKey, WORKING, random, true)] + [ListModels(u, false, WORKING, clock, true)];
    var key := TrimSpace(apiKey);
    RegisterFirst(env, u, p, apiKey, random);
    TrimSpaceTwice(apiKey);
    WorkingFetches(p, key);
    var row := Registration(env, p, apiKey, WORKING, random, true).value;
    FirstListing(env, u, p, row, key, WORKING, clock);
    var w := ServeAll(env, World(map[], map[]), run);
    assert run[..1] == [RegisterKey(u, p, apiKey, WORKING, random, true)] && run[..1][..0] == [];
    assert ServeAll(env, World(map[], map[]), run[..1]) == World(map[(u, p) := row], map[]);
    assert w.table == map[(u, p) := row];
    OneRowOneKey(env, u, p, row, key);
    assert Masked(w.cache, u, ONE_MODEL, DecryptedKeys(env, w.table, u)[0], DOWN, later(2 * 0));
    CacheAgreesExactly(env, map[], run, ONE_MODEL, u, DOWN, later);
  }

  /** While fetches succeed, cached or not, the answer is the user's catalogues in provider order. */
  lemma {:induction false} CacheRefinesRecomputation(env: Env, table: Table, run: seq<Request>, cat: Catalogue, u: string, refresh: bool,
                                  http: Http, clock: Clock)
    requires ValidTable(table) && RunMeets(run, InCatalogue(cat)) && Meets(http, InCatalogue(cat))
    requires forall k | k in DecryptedKeys(env, ServeAll(env, World(table, map[]), run).table, u) ::
               Fetch(http, k.provider, k.rawKey).Some?
    ensures var w := ServeAll(env, World(table, map[]), run);
            Available(env, w, u, refresh, http, clock).models == Listed(cat, DecryptedKeys(env, w.table, u))
  {
    hide IsValid, StoredKey, Fetch, Fresh, Meets, RunMeets, Contributions, Answer, ServeAll, Discover, DecryptedKeys, Listed;
    RunsKeepFresh(env, table, run, InCatalogue(cat));
    var w := ServeAll(env, World(table, map[]), run);
    FreshTableIsValid(env, w, InCatalogue(cat));
    DecryptedKeysAreStored(env, w.table, u);
    var keys := DecryptedKeys(env, w.table, u);
    DiscoverCollects(env, w.cache, u, keys, refresh, http, clock);
    ContributionsAreListed(env, w, u, cat, keys, refresh, http, clock);
  }

  // ---- Provider tags -------------------------------------------------------------------------------

  function TagClaim(): Claim
  {
    (p, key, models) => Tagged(models, p)
  }

  lemma AllFetchesTag(http: Http)
    ensures Meets(http, TagClaim())
  {
    forall p, key | Fetch(http, p, key).Some?
      ensures TagClaim()(p, key, Fetch(http, p, key).value)
    {
      FetchTags(http, p, key);
    }
  }

  lemma {:induction false} ContributionsAreTagged(env: Env, w: World, u: string, keys: seq<DecryptedKey>, refresh: bool,
                                                  http: Http, clock: Clock)
    requires Fresh(env, w, TagClaim())
    requires forall k | k in keys :: IsValid(k.provider)
    ensures forall m | m in Contributions(w.cache, u, keys, refresh, http, clock) :: m.provider in Providers(keys)
  {
    hide IsValid, StoredKey, Fetch, Meets;
    if keys == [] {
    } else {
      var n := |keys| - 1;
      var init, last := keys[..n], keys[n];
      ContributionsAreTagged(env, w, u, init, refresh, http, clock);
      FetchTags(http, last.provider, last.rawKey);
      assert FreshPair(env, w, TagClaim(), u, last.provider);
      assert Tagged(Contribution(w.cache, u, last, refresh, http, clock(2 * n)), last.provider);
      assert Providers(keys) == Providers(init) + [last.provider];
    }
  }

  /** Cached lists carry their provider, and every model returned belongs to a returned active provider. */
  lemma {:induction false} ModelsBelongToActiveProviders(env: Env, table: Table, run: seq<Request>, u: string, refresh: bool, http: Http,
                                      clock: Clock)
    requires ValidTable(table)
    ensures var w := ServeAll(env, World(table, map[]), run);
            && (forall v, p | IsValid(p) && CacheKey(v, p) in w.cache :: Tagged(w.cache[CacheKey(v, p)].models, p))
            && forall m | m in Available(env, w, u, refresh, http, clock).models ::
                 m.provider in Providers(DecryptedKeys(env, w.table, u))
  {
    hide IsValid, StoredKey, Meets, ServeAll, Discover, DecryptedKeys, Contributions, Tagged, Fetch;
    forall r | r in run && HttpOf(r).Some?
      ensures Meets(HttpOf(r).value, TagClaim())
    {
      AllFetchesTag(HttpOf(r).value);
    }
    RunsKeepFresh(env, table, run, TagClaim());
    var w := ServeAll(env, World(table, map[]), run);
    forall v, p | IsValid(p) && CacheKey(v, p) in w.cache
      ensures Tagged(w.cache[CacheKey(v, p)].models, p)
    {
      assert FreshPair(env, w, TagClaim(), v, p);
    }
    DecryptedKeysAreStored(env, w.table, u);
    var keys := DecryptedKeys(env, w.table, u);
    DiscoverCollects(env, w.cache, u, keys, refresh, http, clock);
    ContributionsAreTagged(env, w, u, keys, refresh, http, clock);
  }

  // ---- Credentials ---------------------------------------------------------------------------------

  /** A successful registration or deletion of the pair. */
  predicate Replaces(env: Env, w: World, r: Request, u: string, p: Provider)
  {
    match r
    case RegisterKey(u', p', apiKey, http, random, dbOk) =>
      u' == u && p' == p && Registration(env, p', apiKey, http, random, dbOk).Ok?
    case DeleteKey(u', p', dbOk) => u' == u && p' == p && Deletion(w, u', p', dbOk).Ok?
    case _ => false
  }

  predicate NeverReplaces(env: Env, w: World, run: seq<Request>, u: string, p: Provider)
  {
    run != [] ==>
      && NeverReplaces(env, w, run[..|run| - 1], u, p)
      && !Replaces(env, ServeAll(env, w, run[..|run| - 1]), run[|run| - 1], u, p)
  }

  lemma ServeKeepsRow(env: Env, w: World, r: Request, u: string, p: Provider)
    requires !Replaces(env, w, r, u, p)
    ensures StoredKey(env, Serve(env, w, r).table, u, p) == StoredKey(env, w.table, u, p)
  {
    hide Decrypt, Registration, Available, Purged;
  }

  lemma {:induction false} RunKeepsRow(env: Env, w: World, run: seq<Request>, u: string, p: Provider)
    requires NeverReplaces(env, w, run, u, p)
    ensures StoredKey(env, ServeAll(env, w, run).table, u, p) == StoredKey(env, w.table, u, p)
  {
    hide StoredKey, Serve, Replaces;
    if run == [] {
    } else {
      var init := run[..|run| - 1];
      RunKeepsRow(env, w, init, u, p);
      ServeKeepsRow(env, ServeAll(env, w, init), run[|run| - 1], u, p);
    }
  }

  /** A registered key is read back, trimmed, after any requests that do not replace it, for every nonce. */
  lemma CredentialRoundTrip(env: Env, w: World, u: string, p: Provider, apiKey: Bytes, http: Http, random: Bytes, dbOk: bool,
                            run: seq<Request>)
    requires Registration(env, p, apiKey, http, random, dbOk).Ok?
    requires NeverReplaces(env, Register(w, u, p, Registration(env, p, apiKey, http, random, dbOk)), run, u, p)
    ensures StoredKey(env, ServeAll(env, Register(w, u, p, Registration(env, p, apiKey, http, random, dbOk)), run).table, u, p)
            == Some(TrimSpace(apiKey))
  {
    hide Decrypt, Encrypt, TrimSpace, Fetch, ServeAll, NeverReplaces;
    var w' := Register(w, u, p, Registration(env, p, apiKey, http, random, dbOk));
    RunKeepsRow(env, w', run, u, p);
    DecryptEncrypted(env.gcm, TrimSpace(apiKey), env.masterKey, random);
  }

  // ---- Users do not disturb each other -------------------------------------------------------------

  /** A request of another user, or a sweep at a time not after `now`. */
  predicate Foreign(r: Request, u: string, now: int)
  {
    match r
    case SweepCache(at) => at <= now
    case PurgeCache(v) => v != u && !(v + ":" <= u)
    case _ => r.userId != u
  }

  lemma PurgedLeavesUsers(c: View, v: string, p': Provider, u: string, p: Provider)
    requires u != v && IsValid(p) && IsValid(p')
    ensures SamePair(c, Purged(c, v, p'), u, p)
  {
    CacheKeyInjective(u, p, v, p');
  }

  lemma ListLeavesUsers(env: Env, w: World, v: string, refresh: bool, http: Http, clock: Clock, u: string, p: Provider)
    requires ValidTable(w.table) && u != v && IsValid(p)
    ensures SamePair(w.cache, Available(env, w, v, refresh, http, clock).cache, u, p)
  {
    hide StoredKey, Discover, IsValid, DecryptedKeys, SamePair;
    DecryptedKeysAreStored(env, w.table, v);
    DiscoverLeavesOthers(env, w.cache, v, DecryptedKeys(env, w.table, v), refresh, http, clock, u, p);
  }

  lemma RegisteredIsValid(env: Env, p: Provider, apiKey: Bytes, http: Http, random: Bytes, dbOk: bool)
    ensures Registration(env, p, apiKey, http, random, dbOk).Ok? ==> IsValid(p)
  {
  }

  lemma ForeignKeepsAnswers(env: Env, w: World, r: Request, u: string, p: Provider, now: int)
    requires ValidTable(w.table) && IsValid(p) && Foreign(r, u, now)
    ensures Answer(Serve(env, w, r).cache, u, p, now) == Answer(w.cache, u, p, now)
  {
    hide Registration, Available, IsValid, Answer, SamePair, Purged, UserPurged, Swept;
    var c := Serve(env, w, r).cache;
    match r
    case RegisterKey(v, p', apiKey, http, random, dbOk) =>
      if Registration(env, p', apiKey, http, random, dbOk).Ok? {
        RegisteredIsValid(env, p', apiKey, http, random, dbOk);
        PurgedLeavesUsers(w.cache, v, p', u, p);
        SamePairAnswers(w.cache, c, u, p, now);
      }
    case DeleteKey(v, p', dbOk) =>
      if Deletion(w, v, p', dbOk).Ok? {
        PurgedLeavesUsers(w.cache, v, p', u, p);
        SamePairAnswers(w.cache, c, u, p, now);
      }
    case ListModels(v, refresh, http, clock, dbOk) =>
      ListLeavesUsers(env, w, v, refresh, http, clock, u, p);
      if dbOk {
        SamePairAnswers(w.cache, c, u, p, now);
      }
    case PurgeCache(v) => UserPurgedKeepsAnswers(w.cache, v, u, p, now);
    case SweepCache(at) => SweptKeepsAnswers(w.cache, at, u, p, now);
  }

  lemma UserPurgedKeepsAnswers(c: View, v: string, u: string, p: Provider, now: int)
    requires IsValid(p) && v != u && !(v + ":" <= u)
    ensures Answer(UserPurged(c, v), u, p, now) == Answer(c, u, p, now)
  {
    PurgedBy(u, p, v);
  }

  lemma SweptKeepsAnswers(c: View, at: int, u: string, p: Provider, now: int)
    requires at <= now
    ensures Answer(Swept(c, at), u, p, now) == Answer(c, u, p, now)
  {
  }

  /** What others do changes neither a user's keys nor what the cache answers that user. */
  lemma UsersAreIsolated(env: Env, w: World, r: Request, u: string, p: Provider, now: int)
    requires ValidTable(w.table) && IsValid(p) && Foreign(r, u, now)
    ensures StoredKey(env, Serve(env, w, r).table, u, p) == StoredKey(env, w.table, u, p)
    ensures Answer(Serve(env, w, r).cache, u, p, now) == Answer(w.cache, u, p, now)
  {
    hide StoredKey, Serve, Answer;
    ServeKeepsRow(env, w, r, u, p);
    ForeignKeepsAnswers(env, w, r, u, p, now);
  }
}
