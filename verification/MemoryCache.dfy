/** The cache as the object the services share: a mutable map of items that point to slices on the heap. */
module MemoryCaches {
  import opened GoBytes
  import opened ModelCache
  import opened Registry

  /** `Set` keeps the caller's slice itself; the key it was fetched with is there for reasoning only. */
  datatype CacheItem = CacheItem(models: array<AIModel>, expiresAt: int, ghost fetchedWith: Bytes)

  const MINUTE: int := 60_000_000_000

  class MemoryCache {
    var items: map<string, CacheItem>
    const ttl: int

    ghost function Slices(): set<object>
      reads this
    {
      set k | k in items :: items[k].models
    }

    /** The entries as values. */
    ghost function Entries(): (c: View)
      reads this, Slices()
    {
      map k | k in items :: Entry(items[k].models[..], items[k].expiresAt, items[k].fetchedWith)
    }

    constructor (ttl: int)
      ensures this.ttl == if ttl <= 0 then 900_000_000_000 else ttl
      ensures this.ttl > 0 && Entries() == map[]
    {
      this.ttl := if ttl <= 0 then 15 * MINUTE else ttl;
      items := map[];
    }

    /** A hit is answered with a copy. */
    method Get(userId: string, provider: Provider, now: int) returns (models: array?<AIModel>)
      ensures models == null <==> Answer(Entries(), userId, provider, now).None?
      ensures models != null ==> fresh(models) && models[..] == Answer(Entries(), userId, provider, now).value
      ensures models != null <==> userId + ":" + provider in items && now <= items[userId + ":" + provider].expiresAt
      ensures models != null ==> models[..] == items[userId + ":" + provider].models[..]
    {
      var key := CacheKey(userId, provider);
      if key !in items || now > items[key].expiresAt {
        return null;
      }
      var held := items[key].models;
      var result := new AIModel[held.Length];
      for i := 0 to held.Length
        invariant result[..i] == held[..i]
      {
        result[i] := held[i];
      }
      assert result[..] == held[..];
      models := result;
    }

    method Set(userId: string, provider: Provider, models: array<AIModel>, now: int, ghost fetchedWith: Bytes)
      modifies this
      ensures items == old(items)[userId + ":" + provider := CacheItem(models, now + ttl, fetchedWith)]
      ensures Entries() == Stored(old(Entries()), userId, provider, Entry(models[..], now + ttl, fetchedWith))
      ensures Slices() <= old(Slices()) + {models}
    {
      items := items[CacheKey(userId, provider) := CacheItem(models, now + ttl, fetchedWith)];
    }

    method Purge(userId: string, provider: Provider)
      modifies this
      ensures Entries() == Purged(old(Entries()), userId, provider)
      ensures items == old(items) - {userId + ":" + provider}
      ensures Slices() <= old(Slices())
    {
      items := items - {CacheKey(userId, provider)};
    }

    /** Deletes while ranging over the keys. */
    method PurgeUser(userId: string)
      modifies this
      ensures Entries() == UserPurged(old(Entries()), userId)
      ensures forall k :: k in items <==> k in old(items) && !(userId + ":" <= k)
      ensures forall k | k in items :: items[k] == old(items)[k]
      ensures Slices() <= old(Slices())
    {
      var toVisit := items.Keys;
      while toVisit != {}
        invariant toVisit <= items.Keys <= old(items).Keys
        invariant forall k | k in items :: items[k] == old(items)[k]
        invariant forall k | k in old(items) :: k in items <==> k in toVisit || !HasPrefix(k, userId)
        decreases toVisit
      {
        var k :| k in toVisit;
        toVisit := toVisit - {k};
        if HasPrefix(k, userId) {
          items := items - {k};
        }
      }
    }

    /** One tick of the background cleanup. */
    method Sweep(now: int)
      modifies this
      ensures Entries() == Swept(old(Entries()), now)
      ensures forall k :: k in items <==> k in old(items) && now <= old(items)[k].expiresAt
      ensures forall k | k in items :: items[k] == old(items)[k]
      ensures Slices() <= old(Slices())
    {
      var toVisit := items.Keys;
      while toVisit != {}
        invariant toVisit <= items.Keys <= old(items).Keys
        invariant forall k | k in items :: items[k] == old(items)[k]
        invariant forall k | k in old(items) :: k in items <==> k in toVisit || now <= old(items)[k].expiresAt
        decreases toVisit
      {
        var k :| k in toVisit;
        toVisit := toVisit - {k};
        if now > items[k].expiresAt {
          items := items - {k};
        }
      }
    }
  }

  /** Overwriting any slice reaches the cache exactly if the cache holds it and the model is another. */
  method Overwrite(c: MemoryCache, models: array<AIModel>, i: nat, junk: AIModel)
    requires i < models.Length
    modifies models
    ensures models[..] == old(models[..])[i := junk]
    ensures c.Entries() == old(c.Entries()) <==> old(models !in c.Slices() || models[i] == junk)
  {
    ghost var before, was := c.Entries(), models[..];
    models[i] := junk;
    assert models[..] == was[i := junk];
    if models in c.Slices() {
      var k :| k in c.items && c.items[k].models == models;
      assert before[k].models == was && c.Entries()[k].models == models[..];
    }
    assert was[i] == junk ==> models[..] == was;
  }

  /** Overwriting a slice that `Get` returned changes no entry and no later answer. */
  method OverwriteAnswer(c: MemoryCache, userId: string, provider: Provider, now: int, i: nat, junk: AIModel, later: int)
    returns (again: array?<AIModel>)
    ensures c.Entries() == old(c.Entries())
    ensures again == null <==> Answer(old(c.Entries()), userId, provider, later).None?
    ensures again != null ==> again[..] == Answer(old(c.Entries()), userId, provider, later).value
  {
    var models := c.Get(userId, provider, now);
    if models != null && i < models.Length {
      models[i] := junk;
    }
    again := c.Get(userId, provider, later);
  }

  /** Not so for the slice given to `Set`, which is stored uncopied: writing to it rewrites the entry. */
  method OverwriteArgument(c: MemoryCache, userId: string, provider: Provider, models: array<AIModel>, now: int,
                           i: nat, junk: AIModel)
    returns (again: array?<AIModel>)
    requires i < models.Length && c.ttl > 0
    modifies c, models
    ensures again != null && again[..] == old(models[..])[i := junk]
  {
    c.Set(userId, provider, models, now, []);
    models[i] := junk;
    again := c.Get(userId, provider, now);
  }
}
