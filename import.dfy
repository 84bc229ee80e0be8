/** The current `importSlackZip` (src/lib/import.ts): the shared ingestion,
    then the MIME-filtered assets cached in chunks of five, through the proxy
    when a Slack token is stored. */
module Import {
  import opened Wrappers
  import opened Archive
  import opened Assets
  import opened Store
  import opened Caching
  import opened Ingest

  /** `importSlackZip(file)`. `entries` is the archive listing, `completion`
      the order in which the entries' reads finish, `storedToken` what
      `localStorage` holds under `slack_token`, and `net(i)` the outcome of
      fetching the `i`-th asset. A `Failure` is the thrown error. */
  method ImportSlackZip(db: Db, fileName: string, entries: seq<Entry>, completion: seq<Entry>,
                        storedToken: Option<string>, net: nat -> FetchOutcome)
      returns (r: Result<nat, ImportError>, requests: seq<Request>)
    requires db.Valid()
    requires multiset(completion) == multiset(entries)
    modifies db`workspaces, db`nextId, db`users, db`channels, db`messages, db`files
    ensures db.Valid()
    ensures var e := Expected(Current, fileName, entries, completion, old(db.nextId));
      r == e.result &&
      db.workspaces == old(db.workspaces) + e.workspaces &&
      db.users == old(db.users) + e.users &&
      db.channels == old(db.channels) + e.channels &&
      db.messages == old(db.messages) + e.messages &&
      db.files == old(db.files) + (if r.Success? then CacheRows(Current, r.value, e.assets, net) else []) &&
      requests == (if r.Success? then Requests(Current, TokenOf(storedToken), e.assets) else [])
    ensures db.sections == old(db.sections)
  {
    var assets;
    r, assets := IngestArchive(Current, db, fileName, entries, completion);
    if r.Failure? {
      return r, [];
    }
    var token := TokenOf(storedToken);
    ghost var chunks;
    requests, chunks := CacheInChunks(db, r.value, assets, token, net);
  }

  /** Only images, videos and PDFs reach the `files` table. */
  lemma CachedTypesCacheable(fileName: string, entries: seq<Entry>, completion: seq<Entry>, nextId: nat,
                             net: nat -> FetchOutcome)
    ensures var e := Expected(Current, fileName, entries, completion, nextId);
      forall row :: row in CacheRows(Current, nextId, e.assets, net) ==>
        row.mimeType.Str? && CacheableMime(row.mimeType.s)
  {
    var e := Expected(Current, fileName, entries, completion, nextId);
    AssetsAdmissible(Current, fileName, entries, completion, nextId);
    CacheRowsMime(Current, nextId, e.assets, net);
  }

  /** With a non-empty stored token every asset is fetched through the
      proxy; without one, every asset is fetched directly. */
  lemma ProxyIffToken(fileName: string, entries: seq<Entry>, completion: seq<Entry>, nextId: nat,
                      storedToken: Option<string>)
    ensures var assets := Expected(Current, fileName, entries, completion, nextId).assets;
      var rs := Requests(Current, TokenOf(storedToken), assets);
      |rs| == |assets| &&
      forall i :: 0 <= i < |rs| ==>
        rs[i].url == assets[i].1.url &&
        (rs[i].Proxy? <==> storedToken.Some? && storedToken.value != "")
  {
    var assets := Expected(Current, fileName, entries, completion, nextId).assets;
    RequestsOnePerAsset(Current, TokenOf(storedToken), assets);
  }
}
