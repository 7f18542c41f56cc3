/**
  The in-memory model cache: string keys made of user and provider, a time to live, lazy expiry on
  reads and a background sweep. Times are nanoseconds on a clock that does not go back.
 */
module ModelCache {
  import opened GoBytes
  import opened Registry
  import opened Wrappers

  type Models = seq<AIModel>

  /** A cached list, the last instant it may be served, and (for reasoning only) the API key it was fetched with. */
  datatype Entry = Entry(models: Models, expiresAt: int, fetchedWith: Bytes)

  type View = map<string, Entry>

  // ---- Keys ----------------------------------------------------------------------------------------

  function CacheKey(userId: string, provider: Provider): (key: string)
  {
    userId + ":" + provider
  }

  lemma ProvidersHaveNoColon(p: Provider)
    requires IsValid(p)
    ensures ':' !in p
  {
  }

  /** The last colon of a key is the separator, whatever the user id holds. */
  lemma SeparatorIsLast(u: string, p: Provider, i: nat)
    requires IsValid(p) && |u| <= i < |CacheKey(u, p)|
    ensures CacheKey(u, p)[i] == ':' <==> i == |u|
  {
    ProvidersHaveNoColon(p);
    if i > |u| {
      assert CacheKey(u, p)[i] == p[i - |u| - 1];
    }
  }

  /** Different pairs never share a key. */
  lemma CacheKeyInjective(u1: string, p1: Provider, u2: string, p2: Provider)
    requires IsValid(p1) && IsValid(p2)
    ensures CacheKey(u1, p1) == CacheKey(u2, p2) <==> u1 == u2 && p1 == p2
  {
    var k := CacheKey(u1, p1);
    if k == CacheKey(u2, p2) {
      SeparatorIsLast(u1, p1, |u1|);
      SeparatorIsLast(u2, p2, |u2|);
      if |u1| <= |u2| {
        SeparatorIsLast(u1, p1, |u2|);
      } else {
        SeparatorIsLast(u2, p2, |u1|);
      }
      assert u1 == k[..|u1|] && p1 == k[|u1| + 1..];
      assert u2 == k[..|u2|] && p2 == k[|u2| + 1..];
    }
  }

  predicate HasPrefix(key: string, userId: string)
  {
    userId + ":" <= key
  }

  /** A prefix purge for `v` hits the entries of `v`, and of every user whose id continues `v` with a colon. */
  lemma PurgedBy(u: string, p: Provider, v: string)
    requires IsValid(p)
    ensures HasPrefix(CacheKey(u, p), v) <==> u == v || v + ":" <= u
  {
    var k := CacheKey(u, p);
    assert k[..|u|] == u;
    if HasPrefix(k, v) {
      assert k[|v|] == (v + ":")[|v|] && k[..|v|] == v;
      if |v| >= |u| {
        SeparatorIsLast(u, p, |v|);
      } else {
        assert u[..|v| + 1] == v + ":";
      }
    }
  }

  lemma ContinuedHasColon(u: string, v: string)
    requires v + ":" <= u
    ensures ':' in u
  {
    assert u[|v|] == (v + ":")[|v|];
  }

  /** So it is exact for ids without colons. */
  lemma PurgeUserIsExact(u: string, p: Provider, v: string)
    requires IsValid(p) && ':' !in u
    ensures HasPrefix(CacheKey(u, p), v) <==> u == v
  {
    PurgedBy(u, p, v);
    if v + ":" <= u {
      ContinuedHasColon(u, v);
    }
  }

  /** With colons it is not: purging any user also purges another. */
  lemma PurgeUserOverreaches(v: string, p: Provider)
    requires IsValid(p)
    ensures v + ":x" != v && HasPrefix(CacheKey(v + ":x", p), v)
  {
    PurgedBy(v + ":x", p, v);
    assert |v + ":x"| != |v|;
  }

  // ---- What the operations do ----------------------------------------------------------------------

  function Stored(c: View, u: string, p: Provider, e: Entry): View
  {
    c[CacheKey(u, p) := e]
  }

  function Purged(c: View, u: string, p: Provider): View
  {
    c - {CacheKey(u, p)}
  }

  function UserPurged(c: View, u: string): View
  {
    map k | k in c && !HasPrefix(k, u) :: c[k]
  }

  function Swept(c: View, now: int): View
  {
    map k | k in c && now <= c[k].expiresAt :: c[k]
  }

  function Answer(c: View, u: string, p: Provider, now: int): (r: Option<Models>)
  {
    var k := CacheKey(u, p);
    if k in c && now <= c[k].expiresAt then Some(c[k].models) else None
  }

  // ---- Runs ----------------------------------------------------------------------------------------

  datatype Op =
    | Set(userId: string, provider: Provider, models: Models, fetchedWith: Bytes)
    | Purge(userId: string, provider: Provider)
    | PurgeUser(userId: string)
    | Sweep

  datatype Event = Event(at: int, op: Op)

  function Step(c: View, e: Event, ttl: int): View
  {
    match e.op
    case Set(u, p, models, key) => Stored(c, u, p, Entry(models, e.at + ttl, key))
    case Purge(u, p) => Purged(c, u, p)
    case PurgeUser(u) => UserPurged(c, u)
    case Sweep => Swept(c, e.at)
  }

  function Run(events: seq<Event>, ttl: int): (c: View)
  {
    if events == [] then map[] else Step(Run(events[..|events| - 1], ttl), events[|events| - 1], ttl)
  }

  predicate ValidEvent(e: Event)
  {
    (e.op.Set? || e.op.Purge? ==> IsValid(e.op.provider))
  }

  /** The clock does not go back, and it is `now` at the end. */
  predicate Timed(events: seq<Event>, now: int)
  {
    && (forall e | e in events :: ValidEvent(e))
    && (forall i, j | 0 <= i < j < |events| :: events[i].at <= events[j].at)
    && (forall e | e in events :: e.at <= now)
  }

  /** The event that last stored the pair, if nothing removed it since: `before` until `e` comes. */
  function After(before: Option<Event>, u: string, p: Provider, e: Event): Option<Event>
  {
    match e.op
    case Set(u', p', _, _) => if u' == u && p' == p then Some(e) else before
    case Purge(u', p') => if u' == u && p' == p then None else before
    case PurgeUser(v) => if u == v || v + ":" <= u then None else before
    case Sweep => before
  }

  /** The last event that stored or removed the pair, if it stored it. */
  function LastStored(events: seq<Event>, u: string, p: Provider): (e: Option<Event>)
    ensures e.Some? ==> e.value in events && e.value.op.Set? && e.value.op.userId == u && e.value.op.provider == p
  {
    if events == [] then None else After(LastStored(events[..|events| - 1], u, p), u, p, events[|events| - 1])
  }

  /** The entry `c` has for the pair is `e`'s; if it has none, `e` is missing or was swept by `now`. */
  ghost predicate Matches(c: View, u: string, p: Provider, e: Option<Event>, ttl: int, now: int)
  {
    var k := CacheKey(u, p);
    if k in c
    then e.Some? && e.value.op.Set? && c[k] == Entry(e.value.op.models, e.value.at + ttl, e.value.op.fetchedWith)
    else e.None? || e.value.at + ttl < now
  }

  lemma {:induction false} RunMatches(events: seq<Event>, u: string, p: Provider, ttl: int, now: int)
    requires Timed(events, now) && IsValid(p)
    ensures Matches(Run(events, ttl), u, p, LastStored(events, u, p), ttl, now)
  {
    if events == [] {
    } else {
      var init, last := events[..|events| - 1], events[|events| - 1];
      assert Timed(init, last.at);
      RunMatches(init, u, p, ttl, last.at);
      StepMatches(Run(init, ttl), u, p, LastStored(init, u, p), last, ttl);
    }
  }

  /** One event moves the reference answer as it moves the map. */
  lemma StepMatches(c: View, u: string, p: Provider, before: Option<Event>, e: Event, ttl: int)
    requires IsValid(p) && ValidEvent(e)
    requires Matches(c, u, p, before, ttl, e.at)
    ensures Matches(Step(c, e, ttl), u, p, After(before, u, p, e), ttl, e.at)
  {
    match e.op
    case Set(u', p', _, _) => CacheKeyInjective(u, p, u', p');
    case Purge(u', p') => CacheKeyInjective(u, p, u', p');
    case PurgeUser(v) => PurgedBy(u, p, v);
    case Sweep =>
  }

  /** What a `Get` at `now` returns depends only on the last event that stored or removed the pair. */
  function Expected(events: seq<Event>, u: string, p: Provider, ttl: int, now: int): (r: Option<Models>)
  {
    match LastStored(events, u, p)
    case Some(e) => if now <= e.at + ttl then Some(e.op.models) else None
    case None => None
  }

  lemma GetAfterRun(events: seq<Event>, u: string, p: Provider, ttl: int, now: int)
    requires Timed(events, now) && IsValid(p)
    ensures Answer(Run(events, ttl), u, p, now) == Expected(events, u, p, ttl, now)
  {
    RunMatches(events, u, p, ttl, now);
  }

  function WithoutSweeps(events: seq<Event>): (kept: seq<Event>)
    ensures forall e | e in kept :: e in events
  {
    if events == [] then []
    else
      var before, last := WithoutSweeps(events[..|events| - 1]), events[|events| - 1];
      if last.op.Sweep? then before else before + [last]
  }

  lemma {:induction false} WithoutSweepsIsTimed(events: seq<Event>, now: int)
    requires Timed(events, now)
    ensures Timed(WithoutSweeps(events), now)
  {
    if events == [] {
    } else {
      WithoutSweepsIsTimed(events[..|events| - 1], events[|events| - 1].at);
    }
  }

  lemma {:induction false} SweepsStoreNothing(events: seq<Event>, u: string, p: Provider)
    ensures LastStored(WithoutSweeps(events), u, p) == LastStored(events, u, p)
  {
    if events == [] {
    } else {
      var init, last := events[..|events| - 1], events[|events| - 1];
      SweepsStoreNothing(init, u, p);
      if !last.op.Sweep? {
        var kept := WithoutSweeps(init);
        assert (kept + [last])[..|kept|] == kept;
      }
    }
  }

  /** No `Get` can tell a cache that sweeps from one that never does. */
  lemma {:induction false} SweepingIsInvisible(events: seq<Event>, u: string, p: Provider, ttl: int, now: int)
    requires Timed(events, now) && IsValid(p)
    ensures Answer(Run(events, ttl), u, p, now) == Answer(Run(WithoutSweeps(events), ttl), u, p, now)
  {
    hide Run, Answer, WithoutSweeps, LastStored;
    WithoutSweepsIsTimed(events, now);
    GetAfterRun(events, u, p, ttl, now);
    GetAfterRun(WithoutSweeps(events), u, p, ttl, now);
    SweepsStoreNothing(events, u, p);
  }

  /** A hit was stored for that pair no longer than the time to live ago. */
  lemma HitsAreRecent(events: seq<Event>, u: string, p: Provider, ttl: int, now: int)
    requires Timed(events, now) && IsValid(p)
    requires Answer(Run(events, ttl), u, p, now).Some?
    ensures exists e | e in events ::
              && e.op.Set? && e.op.userId == u && e.op.provider == p
              && now - ttl <= e.at <= now && Answer(Run(events, ttl), u, p, now) == Some(e.op.models)
  {
    hide Run, Answer;
    GetAfterRun(events, u, p, ttl, now);
    var e := LastStored(events, u, p).value;
    assert e in events;
  }
}
