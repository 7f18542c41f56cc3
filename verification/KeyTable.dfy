/** The table of encrypted API keys, one row per user and provider, and the repository over it. */
module KeyTable {
  import opened GoBytes
  import opened Registry
  import opened Wrappers

  /** Encrypted keys by user and provider; the unique index makes this a map. */
  type Table = map<(string, Provider), Bytes>

  datatype Row = Row(provider: Provider, encryptedKey: Bytes)

  /** The providers in the order of `ORDER BY provider ASC`. */
  const SORTED: seq<Provider> := [ANTHROPIC, GOOGLE, OPENAI, OPENROUTER]

  function RowsAmong(t: Table, userId: string, providers: seq<Provider>): (rows: seq<Row>)
  {
    if providers == [] then []
    else
      var p := providers[|providers| - 1];
      RowsAmong(t, userId, providers[..|providers| - 1]) + if (userId, p) in t then [Row(p, t[(userId, p)])] else []
  }

  function RowsOf(t: Table, userId: string): (rows: seq<Row>)
  {
    RowsAmong(t, userId, SORTED)
  }

  /** Strict dictionary order. */
  predicate Less(a: string, b: string)
  {
    b != "" && (a == "" || a[0] < b[0] || (a[0] == b[0] && Less(a[1..], b[1..])))
  }

  lemma {:induction false} LessAt(a: string, b: string, n: nat)
    requires n < |a| && n < |b| && a[..n] == b[..n] && a[n] < b[n]
    ensures Less(a, b)
  {
    if n == 0 {
    } else {
      assert a[0] == a[..n][0] == b[..n][0] == b[0];
      assert a[1..][..n - 1] == a[..n][1..] == b[..n][1..] == b[1..][..n - 1];
      LessAt(a[1..], b[1..], n - 1);
    }
  }

  lemma {:induction false} LessIsStrict(a: string)
    ensures !Less(a, a)
  {
    if a == "" {
    } else {
      LessIsStrict(a[1..]);
    }
  }

  predicate SortedRows(rows: seq<Row>)
  {
    forall i, j | 0 <= i < j < |rows| :: Less(rows[i].provider, rows[j].provider)
  }

  predicate SortedProviders(providers: seq<Provider>)
  {
    forall i, j | 0 <= i < j < |providers| :: Less(providers[i], providers[j])
  }

  lemma ProvidersAreSorted()
    ensures SortedProviders(SORTED)
    ensures forall p | IsValid(p) :: p in SORTED
  {
    LessAt(ANTHROPIC, GOOGLE, 0);
    LessAt(ANTHROPIC, OPENAI, 0);
    LessAt(ANTHROPIC, OPENROUTER, 0);
    LessAt(GOOGLE, OPENAI, 0);
    LessAt(GOOGLE, OPENROUTER, 0);
    assert OPENAI[..4] == "open" == OPENROUTER[..4];
    LessAt(OPENAI, OPENROUTER, 4);
  }

  lemma {:induction false} RowsAmongAreTheRows(t: Table, userId: string, providers: seq<Provider>)
    requires SortedProviders(providers)
    ensures forall r :: r in RowsAmong(t, userId, providers) <==>
              r.provider in providers && (userId, r.provider) in t && t[(userId, r.provider)] == r.encryptedKey
    ensures SortedRows(RowsAmong(t, userId, providers))
  {
    if providers == [] {
    } else {
      var init, p := providers[..|providers| - 1], providers[|providers| - 1];
      assert providers == init + [p];
      RowsAmongAreTheRows(t, userId, init);
      var before := RowsAmong(t, userId, init);
      forall i | 0 <= i < |before|
        ensures Less(before[i].provider, p)
      {
        assert before[i] in before;
      }
    }
  }

  /** Only supported providers are ever registered. */
  predicate ValidTable(t: Table)
  {
    forall k | k in t :: IsValid(k.1)
  }

  /** A user's list holds exactly that user's rows, in provider order. */
  lemma RowsOfAreTheRows(t: Table, userId: string)
    requires ValidTable(t)
    ensures forall r :: r in RowsOf(t, userId) <==>
              (userId, r.provider) in t && t[(userId, r.provider)] == r.encryptedKey
    ensures SortedRows(RowsOf(t, userId))
  {
    hide IsValid, RowsAmong;
    ProvidersAreSorted();
    RowsAmongAreTheRows(t, userId, SORTED);
    forall r: Row | (userId, r.provider) in t
      ensures r.provider in SORTED
    {
      assert IsValid((userId, r.provider).1);
    }
  }

  /** Over a database whose calls may fail; `dbOk` says whether a call does. */
  class UserAPIKeyRepository {
    var table: Table

    constructor ()
      ensures table == map[]
    {
      table := map[];
    }

    method Upsert(userId: string, provider: Provider, encryptedKey: Bytes, dbOk: bool) returns (r: Result<(), DbError>)
      modifies this
      ensures r == if dbOk then Ok(()) else Err(DbFailed)
      ensures table == if dbOk then old(table)[(userId, provider) := encryptedKey] else old(table)
    {
      if !dbOk {
        return Err(DbFailed);
      }
      table := table[(userId, provider) := encryptedKey];
      r := Ok(());
    }

    method GetByProvider(userId: string, provider: Provider, dbOk: bool) returns (r: Result<Option<Row>, DbError>)
      ensures r == if !dbOk then Err(DbFailed)
                   else if (userId, provider) in table then Ok(Some(Row(provider, table[(userId, provider)])))
                   else Ok(None)
    {
      if !dbOk {
        return Err(DbFailed);
      }
      if (userId, provider) !in table {
        return Ok(None);
      }
      r := Ok(Some(Row(provider, table[(userId, provider)])));
    }

    /** With only supported providers in the table: exactly the user's rows, each once, by provider. */
    method ListByUserID(userId: string, dbOk: bool) returns (r: Result<seq<Row>, DbError>)
      ensures r == Err(DbFailed) <==> !dbOk
      ensures r.Err? ==> r == Err(DbFailed)
      ensures r.Ok? ==> r.value == RowsOf(table, userId)
      ensures r.Ok? && ValidTable(table) ==>
                && SortedRows(r.value)
                && forall row :: row in r.value <==>
                     (userId, row.provider) in table && table[(userId, row.provider)] == row.encryptedKey
    {
      if !dbOk {
        return Err(DbFailed);
      }
      if ValidTable(table) {
        RowsOfAreTheRows(table, userId);
      }
      r := Ok(RowsOf(table, userId));
    }

    method DeleteByProvider(userId: string, provider: Provider, dbOk: bool) returns (r: Result<(), DbError>)
      modifies this
      ensures r == if !dbOk then Err(DbFailed)
                   else if (userId, provider) in old(table) then Ok(()) else Err(RecordNotFound)
      ensures table == if r.Ok? then old(table) - {(userId, provider)} else old(table)
    {
      if !dbOk {
        return Err(DbFailed);
      }
      var affected := if (userId, provider) in table then 1 else 0;
      table := table - {(userId, provider)};
      if affected == 0 {
        return Err(RecordNotFound);
      }
      r := Ok(());
    }
  }
}
