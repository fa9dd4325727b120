/** CachingGoodwillAccessor: a read-through cache of the Goodwill registry's
    schemata, keyed by schema name. A refresh fetches the whole list and
    replaces the cache with it; a lookup that misses refreshes once and looks
    again. The remote fetch is an input to each operation, and every refresh,
    whether run by the background task or on a miss, is one atomic step. */
module SchemaCache {

  import opened Base
  import opened GoodwillSchemaFields

  /** A schema of the registry: only its name matters to the cache. */
  datatype GoodwillSchema = GoodwillSchema(name: string, fields: seq<GoodwillSchemaField>)

  /** What the fetch of all schemata yields: the list, a null list (the
      registry answered with a status other than 200), or a failure
      (an ExecutionException or an InterruptedException). */
  datatype FetchResult =
    | Fetched(schemata: seq<GoodwillSchema>)
    | GoodwillDown
    | ExecutionFailed(message: string)
    | Interrupted

  const DefaultCacheTimeoutInSeconds := 90

  /** The map built from a fetched list, a later schema replacing an earlier
      one of the same name. */
  function SchemaIndex(schemata: seq<GoodwillSchema>): (index: map<string, GoodwillSchema>)
    ensures NamesMatch(index)
    decreases |schemata|
  {
    if schemata == [] then map[]
    else
      var last := schemata[|schemata| - 1];
      SchemaIndex(schemata[..|schemata| - 1])[last.name := last]
  }

  /** The last schema of the list with the given name, if any. */
  function LastNamed(schemata: seq<GoodwillSchema>, name: string): (r: Option<GoodwillSchema>)
    ensures r.None? <==> forall i :: 0 <= i < |schemata| ==> schemata[i].name != name
    ensures r.Some? ==>
      exists i :: (0 <= i < |schemata| && schemata[i] == r.value && schemata[i].name == name &&
                   forall j :: i < j < |schemata| ==> schemata[j].name != name)
    decreases |schemata|
  {
    if schemata == [] then None
    else
      var last := schemata[|schemata| - 1];
      if last.name == name then Some(last) else LastNamed(schemata[..|schemata| - 1], name)
  }

  function Lookup(cache: map<string, GoodwillSchema>, name: string): Option<GoodwillSchema> {
    if name in cache then Some(cache[name]) else None
  }

  /** The cache after one refresh: rebuilt from a fetched list, kept as it was otherwise. */
  function Refreshed(cache: map<string, GoodwillSchema>, fetch: FetchResult): (r: map<string, GoodwillSchema>)
    ensures !fetch.Fetched? ==> r == cache
    ensures fetch.Fetched? ==> r.Keys == Names(fetch.schemata)
  {
    if fetch.Fetched? then
      SchemaIndexKeys(fetch.schemata);
      SchemaIndex(fetch.schemata)
    else cache
  }

  function Names(schemata: seq<GoodwillSchema>): set<string> {
    set i | 0 <= i < |schemata| :: schemata[i].name
  }

  /** Every schema in the cache is filed under its own name. */
  ghost predicate NamesMatch(cache: map<string, GoodwillSchema>) {
    forall n :: n in cache ==> cache[n].name == n
  }

  /** After a refresh from a list, the cache holds exactly the list's names,
      each with the last schema of that name. */
  lemma {:induction false} SchemaIndexContents(schemata: seq<GoodwillSchema>, name: string)
    ensures Lookup(SchemaIndex(schemata), name) == LastNamed(schemata, name)
    ensures name in SchemaIndex(schemata) <==> name in Names(schemata)
    decreases |schemata|
  {
    if schemata != [] {
      var front := schemata[..|schemata| - 1];
      SchemaIndexContents(front, name);
      if name in Names(schemata) && name != schemata[|schemata| - 1].name {
        var i :| 0 <= i < |schemata| && schemata[i].name == name;
        assert front[i] == schemata[i];
      }
    }
  }

  /** The keys of the built map are exactly the fetched names. */
  lemma SchemaIndexKeys(schemata: seq<GoodwillSchema>)
    ensures SchemaIndex(schemata).Keys == Names(schemata)
  {
    forall n ensures n in SchemaIndex(schemata) <==> n in Names(schemata) {
      SchemaIndexContents(schemata, n);
    }
  }

  /** Refreshing twice with the same fetch result gives the same cache as refreshing once. */
  lemma RefreshIdempotent(cache: map<string, GoodwillSchema>, fetch: FetchResult)
    ensures Refreshed(Refreshed(cache, fetch), fetch) == Refreshed(cache, fetch)
  {
  }

  /** A refresh from a list does not depend on what the cache held before. */
  lemma RefreshForgetsOldCache(a: map<string, GoodwillSchema>, b: map<string, GoodwillSchema>, schemata: seq<GoodwillSchema>)
    ensures Refreshed(a, Fetched(schemata)) == Refreshed(b, Fetched(schemata))
  {
  }

  class CachingGoodwillAccessor {
    const host: string
    const port: int
    const cacheTimeoutInSeconds: int
    var knownSchemata: map<string, GoodwillSchema>
    /** The number of fetches sent to the registry so far. */
    ghost var fetchCount: nat

    ghost predicate Valid()
      reads this
    {
      NamesMatch(knownSchemata)
    }

    /** A construction that succeeds, that is one with a positive refresh
        interval: the cache starts empty; the background refresh that the
        source schedules at once is a later call of RefreshSchemataCache. */
    constructor (host: string, port: int, cacheTimeoutInSeconds: int)
      requires cacheTimeoutInSeconds > 0
      ensures Valid() && knownSchemata == map[] && fetchCount == 0
      ensures this.host == host && this.port == port && this.cacheTimeoutInSeconds == cacheTimeoutInSeconds
    {
      this.host := host;
      this.port := port;
      this.cacheTimeoutInSeconds := cacheTimeoutInSeconds;
      knownSchemata := map[];
      fetchCount := 0;
    }

    /** The three-argument constructor: scheduling the refresh task with a
        delay that is not positive throws IllegalArgumentException (with no
        message, written ""), and no accessor is made. */
    static method Create(host: string, port: int, cacheTimeoutInSeconds: int) returns (r: Result<CachingGoodwillAccessor>)
      ensures r.Ok? <==> cacheTimeoutInSeconds > 0
      ensures r.Err? ==> r.error == IllegalArgument("")
      ensures r.Ok? ==>
        && fresh(r.value) && r.value.Valid()
        && r.value.knownSchemata == map[] && r.value.fetchCount == 0
        && r.value.host == host && r.value.port == port
        && r.value.cacheTimeoutInSeconds == cacheTimeoutInSeconds
    {
      if cacheTimeoutInSeconds <= 0 {
        return Err(IllegalArgument(""));
      }
      var accessor := new CachingGoodwillAccessor(host, port, cacheTimeoutInSeconds);
      r := Ok(accessor);
    }

    constructor WithDefaultTimeout(host: string, port: int)
      ensures Valid() && knownSchemata == map[] && fetchCount == 0
      ensures this.host == host && this.port == port && cacheTimeoutInSeconds == DefaultCacheTimeoutInSeconds
    {
      this.host := host;
      this.port := port;
      cacheTimeoutInSeconds := DefaultCacheTimeoutInSeconds;
      knownSchemata := map[];
      fetchCount := 0;
    }

    /** refreshSchemataCache: one fetch; a fetched list replaces the whole
        cache, while a null list or a failure leaves it as it was and is not
        passed on to the caller. */
    method RefreshSchemataCache(fetch: FetchResult)
      requires Valid()
      modifies this
      ensures Valid()
      ensures fetchCount == old(fetchCount) + 1
      ensures knownSchemata == Refreshed(old(knownSchemata), fetch)
      ensures !fetch.Fetched? ==> knownSchemata == old(knownSchemata)
      ensures fetch.Fetched? ==> knownSchemata.Keys == Names(fetch.schemata)
      ensures fetch.Fetched? ==> forall n :: Lookup(knownSchemata, n) == LastNamed(fetch.schemata, n)
    {
      fetchCount := fetchCount + 1;
      if !fetch.Fetched? {
        return;
      }
      var schemata := fetch.schemata;
      var newSchemataCache: map<string, GoodwillSchema> := map[];
      for i := 0 to |schemata|
        invariant newSchemataCache == SchemaIndex(schemata[..i])
      {
        assert schemata[..i + 1][..i] == schemata[..i];
        newSchemataCache := newSchemataCache[schemata[i].name := schemata[i]];
      }
      assert schemata[..|schemata|] == schemata;
      forall n
        ensures (n in newSchemataCache <==> n in Names(schemata))
        ensures Lookup(newSchemataCache, n) == LastNamed(schemata, n)
      {
        SchemaIndexContents(schemata, n);
      }
      knownSchemata := map[];
      knownSchemata := knownSchemata + newSchemataCache;
    }

    /** getSchema: a hit is served without a fetch; a miss runs exactly one
        refresh and returns what the refreshed cache holds under the name. */
    method GetSchema(schemaName: string, fetch: FetchResult) returns (schema: Option<GoodwillSchema>)
      requires Valid()
      modifies this
      ensures Valid()
      ensures schemaName in old(knownSchemata) ==>
        && schema == Some(old(knownSchemata)[schemaName])
        && knownSchemata == old(knownSchemata)
        && fetchCount == old(fetchCount)
      ensures schemaName !in old(knownSchemata) ==>
        && fetchCount == old(fetchCount) + 1
        && knownSchemata == Refreshed(old(knownSchemata), fetch)
        && schema == Lookup(knownSchemata, schemaName)
      ensures schema.Some? ==> schema.value.name == schemaName
    {
      schema := Lookup(knownSchemata, schemaName);
      if schema.None? {
        RefreshSchemataCache(fetch);
        schema := Lookup(knownSchemata, schemaName);
      }
    }

    /** getSchemata: the schemata of the cache, each once, without a fetch. */
    method GetSchemata() returns (schemata: seq<GoodwillSchema>)
      requires Valid()
      ensures |schemata| == |knownSchemata|
      ensures forall i :: 0 <= i < |schemata| ==>
        schemata[i].name in knownSchemata && knownSchemata[schemata[i].name] == schemata[i]
      ensures forall n :: n in knownSchemata ==> knownSchemata[n] in schemata
      ensures forall i, j :: 0 <= i < j < |schemata| ==> schemata[i] != schemata[j]
    {
      var pending := knownSchemata.Keys;
      schemata := [];
      while pending != {}
        invariant pending <= knownSchemata.Keys
        invariant |schemata| + |pending| == |knownSchemata.Keys|
        invariant forall i :: 0 <= i < |schemata| ==>
          schemata[i].name in knownSchemata.Keys - pending && knownSchemata[schemata[i].name] == schemata[i]
        invariant forall n :: n in knownSchemata.Keys - pending ==> knownSchemata[n] in schemata
        invariant forall i, j :: 0 <= i < j < |schemata| ==> schemata[i].name != schemata[j].name
        decreases pending
      {
        var n :| n in pending;
        schemata := schemata + [knownSchemata[n]];
        pending := pending - {n};
      }
    }
  }

  /** The scenario of the accessor's test: a registry holding one schema
      "Schema", then failing with status 500. */
  method CachingRegistrarScenario() returns (unknown: Option<GoodwillSchema>, cached: Option<GoodwillSchema>,
                                             cachedInOutage: Option<GoodwillSchema>, newInOutage: Option<GoodwillSchema>)
    ensures unknown == None && newInOutage == None
    ensures cached.Some? && cached.value.name == "Schema"
    ensures cachedInOutage == cached
  {
    var field := New(Some("Schema"), "STRING", 0, None, Some("string"), None, None, None);
    var registry := Fetched([GoodwillSchema("Schema", [field.value])]);
    var accessor := new CachingGoodwillAccessor("127.0.0.1", 8080, 3);
    accessor.RefreshSchemataCache(registry);               // warm-up by the background task
    assert accessor.fetchCount == 1;
    unknown := accessor.GetSchema("Doesn'tExist", registry);
    assert accessor.fetchCount == 2;
    unknown := accessor.GetSchema("Doesn'tExist", registry);
    assert accessor.fetchCount == 3;
    cached := accessor.GetSchema("Schema", registry);
    assert accessor.fetchCount == 3;                        // a hit does not fetch
    accessor.RefreshSchemataCache(registry);               // the next background refresh
    assert accessor.fetchCount == 4;
    cachedInOutage := accessor.GetSchema("Schema", GoodwillDown);
    assert accessor.fetchCount == 4;
    newInOutage := accessor.GetSchema("NewOne", GoodwillDown);
    assert accessor.fetchCount == 5;
  }
}
