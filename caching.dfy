/** Caching the recorded assets into the `files` table. The network is an
    input: `net(i)` is what fetching the `i`-th asset of the list yields. */
module Caching {
  import opened Wrappers
  import opened Json
  import opened Assets
  import opened Batching
  import opened Store

  /** The request issued for one asset: through `/api/proxy` with the token,
      or straight to the origin URL in `no-cors` mode. */
  datatype Request = Proxy(url: Value, token: string) | Direct(url: Value)

  /** A resolved `fetch`: its `ok` flag and what `res.blob()` yields
      (`None` when reading the body rejects). */
  datatype Response = Response(ok: bool, blob: Option<Blob>)

  /** `fetch` rejects, or resolves with a response. */
  datatype FetchOutcome = Rejected | Resolved(response: Response)

  /** `concurrentLimit`: the size of each chunk of concurrent fetches. */
  const ConcurrentLimit: nat := 5

  /** `localStorage.getItem('slack_token') || ''`, read once before the loop. */
  function TokenOf(stored: Option<string>): (token: string)
    ensures stored.Some? && stored.value != "" ==> token == stored.value
    ensures stored.None? || stored.value == "" ==> token == ""
  {
    if stored.Some? then stored.value else ""
  }

  /** The request for one asset. The earlier version always fetches the
      origin URL directly; the current one goes through the proxy exactly
      when the token is non-empty. */
  function RequestFor(version: Version, token: string, meta: Meta): (r: Request)
    ensures r.url == meta.url
    ensures r.Proxy? <==> version == Current && token != ""
    ensures r.Proxy? ==> r.token == token
  {
    if version == Current && token != "" then Proxy(meta.url, token) else Direct(meta.url)
  }

  /** The blob written to the store for one fetch outcome, if any. The current
      version writes only when `res.ok !== false`; the earlier one has no such
      check. A rejected fetch or blob read writes nothing. */
  function CachedBlob(version: Version, outcome: FetchOutcome): (b: Option<Blob>)
    ensures b.Some? <==>
      outcome.Resolved? && outcome.response.blob.Some? && (version == Current ==> outcome.response.ok)
    ensures b.Some? ==> b.value == outcome.response.blob.value
  {
    match outcome
    case Rejected => None
    case Resolved(Response(ok, blob)) =>
      if version == Current && !ok then None else blob
  }

  /** The rows the cache loop adds for `assets`, asset `i` fetched with outcome `net(i)`. */
  function CacheRows(version: Version, ws: nat, assets: seq<Asset>, net: nat -> FetchOutcome): seq<FileRow>
  {
    if assets == [] then []
    else
      var i := |assets| - 1;
      CacheRows(version, ws, assets[..i], net) +
      match CachedBlob(version, net(i))
      case None => []
      case Some(b) => [FileRow(ws, assets[i].0, b, assets[i].1.mimetype)]
  }

  /** The requests issued, one per asset, in list order. */
  function Requests(version: Version, token: string, assets: seq<Asset>): (rs: seq<Request>)
  {
    if assets == [] then []
    else Requests(version, token, assets[..|assets| - 1]) + [RequestFor(version, token, assets[|assets| - 1].1)]
  }

  /** Every asset is fetched exactly once, in list order, and the proxy is
      used for all of them or for none, according to the token. */
  lemma {:induction false} RequestsOnePerAsset(version: Version, token: string, assets: seq<Asset>)
    ensures |Requests(version, token, assets)| == |assets|
    ensures forall i :: 0 <= i < |assets| ==>
      Requests(version, token, assets)[i].url == assets[i].1.url &&
      (Requests(version, token, assets)[i].Proxy? <==> version == Current && token != "")
  {
    if assets != [] {
      var init := assets[..|assets| - 1];
      RequestsOnePerAsset(version, token, init);
      assert forall i :: 0 <= i < |init| ==> init[i] == assets[i];
    }
  }

  /** A row exists for a file exactly when that asset's fetch produced a blob
      the version stores: each asset's outcome decides only its own row. */
  lemma {:induction false} CacheRowsExactly(version: Version, ws: nat, assets: seq<Asset>, net: nat -> FetchOutcome, row: FileRow)
    ensures row in CacheRows(version, ws, assets, net) <==>
      row.workspaceId == ws &&
      exists i :: 0 <= i < |assets| && assets[i].0 == row.fileId && assets[i].1.mimetype == row.mimeType &&
        CachedBlob(version, net(i)) == Some(row.blob)
  {
    if assets != [] {
      var n := |assets| - 1;
      var init := assets[..n];
      CacheRowsExactly(version, ws, init, net, row);
      assert forall i :: 0 <= i < n ==> init[i] == assets[i];
      if row in CacheRows(version, ws, assets, net) && row !in CacheRows(version, ws, init, net) {
        assert row == FileRow(ws, assets[n].0, CachedBlob(version, net(n)).value, assets[n].1.mimetype);
      }
      if row.workspaceId == ws &&
         exists i :: 0 <= i < |assets| && assets[i].0 == row.fileId && assets[i].1.mimetype == row.mimeType &&
           CachedBlob(version, net(i)) == Some(row.blob)
      {
        var i :| 0 <= i < |assets| && assets[i].0 == row.fileId && assets[i].1.mimetype == row.mimeType &&
          CachedBlob(version, net(i)) == Some(row.blob);
        if i == n {
          assert row == FileRow(ws, assets[n].0, CachedBlob(version, net(n)).value, assets[n].1.mimetype);
        }
      }
    }
  }

  /** Every cached row carries the MIME type of an asset, so when the assets
      are admissible for the current version, so are the cached types. */
  lemma {:induction false} CacheRowsMime(version: Version, ws: nat, assets: seq<Asset>, net: nat -> FetchOutcome)
    requires forall i :: 0 <= i < |assets| ==> Admissible(version, assets[i])
    ensures forall r :: r in CacheRows(version, ws, assets, net) ==>
      version == Current ==> r.mimeType.Str? && CacheableMime(r.mimeType.s)
  {
    if assets != [] {
      var init := assets[..|assets| - 1];
      assert forall i :: 0 <= i < |init| ==> init[i] == assets[i];
      CacheRowsMime(version, ws, init, net);
    }
  }

  /** One asset's `async ([fileId, meta]) => { try { ... } catch {} }`. */
  method CacheOne(version: Version, db: Db, ws: nat, asset: Asset, token: string, outcome: FetchOutcome)
      returns (request: Request)
    modifies db`files
    ensures request == RequestFor(version, token, asset.1)
    ensures db.files == old(db.files) +
      match CachedBlob(version, outcome)
      case None => []
      case Some(b) => [FileRow(ws, asset.0, b, asset.1.mimetype)]
  {
    request := RequestFor(version, token, asset.1);
    match outcome {
      case Rejected =>
      case Resolved(res) =>
        if version == Current && !res.ok {
        } else if res.blob.Some? {
          db.AddFile(FileRow(ws, asset.0, res.blob.value, asset.1.mimetype));
        }
    }
  }

  /** The state after the first `k` assets were fetched and cached: the rows
      added to `files0` and the requests issued so far. */
  ghost predicate Cached(version: Version, ws: nat, assets: seq<Asset>, k: nat, token: string,
                         net: nat -> FetchOutcome, files: seq<FileRow>, files0: seq<FileRow>, requests: seq<Request>)
  {
    k <= |assets| &&
    files == files0 + CacheRows(version, ws, assets[..k], net) &&
    requests == Requests(version, token, assets[..k])
  }

  /** Fetching and caching asset `k` of the list, after the `k` before it. */
  method CacheAt(version: Version, db: Db, ws: nat, assets: seq<Asset>, k: nat, token: string,
                 net: nat -> FetchOutcome, requests: seq<Request>, ghost files0: seq<FileRow>)
      returns (requests': seq<Request>)
    requires k < |assets| && Cached(version, ws, assets, k, token, net, db.files, files0, requests)
    modifies db`files
    ensures Cached(version, ws, assets, k + 1, token, net, db.files, files0, requests')
  {
    var request := CacheOne(version, db, ws, assets[k], token, net(k));
    assert assets[..k + 1][..k] == assets[..k];
    requests' := requests + [request];
  }

  /** One chunk `assets[start..end]`, i.e. `Promise.allSettled(chunk.map(...))`. */
  method CacheChunk(db: Db, ws: nat, assets: seq<Asset>, start: nat, end: nat, token: string,
                    net: nat -> FetchOutcome, requests: seq<Request>, ghost files0: seq<FileRow>)
      returns (requests': seq<Request>)
    requires start <= end <= |assets|
    requires db.files == files0 + CacheRows(Current, ws, assets[..start], net)
    requires requests == Requests(Current, token, assets[..start])
    modifies db`files
    ensures db.files == files0 + CacheRows(Current, ws, assets[..end], net)
    ensures requests' == Requests(Current, token, assets[..end])
  {
    requests' := requests;
    var j := 0;
    while start + j < end
      invariant start + j <= end
      invariant Cached(Current, ws, assets, start + j, token, net, db.files, files0, requests')
    {
      requests' := CacheAt(Current, db, ws, assets, start + j, token, net, requests', files0);
      j := j + 1;
    }
  }

  /** Lines 123-151 of the current version: chunks of `concurrentLimit`
      assets, each chunk settled before the next starts. */
  method CacheInChunks(db: Db, ws: nat, assets: seq<Asset>, token: string, net: nat -> FetchOutcome)
      returns (requests: seq<Request>, ghost chunks: seq<seq<Asset>>)
    modifies db`files
    ensures db.files == old(db.files) + CacheRows(Current, ws, assets, net)
    ensures requests == Requests(Current, token, assets)
    ensures chunks == Chunks(assets, ConcurrentLimit)
  {
    var i := 0;
    requests := [];
    chunks := [];
    assert assets[..0] == [];
    while i < |assets|
      invariant 0 <= i <= |assets|
      invariant chunks + Chunks(assets[i..], ConcurrentLimit) == Chunks(assets, ConcurrentLimit)
      invariant db.files == old(db.files) + CacheRows(Current, ws, assets[..i], net)
      invariant requests == Requests(Current, token, assets[..i])
    {
      var end := if i + ConcurrentLimit < |assets| then i + ConcurrentLimit else |assets|;
      var chunk := assets[i..end];
      ChunksUnfold(assets, i, ConcurrentLimit);
      assert chunks + [chunk] + Chunks(assets[end..], ConcurrentLimit) == Chunks(assets, ConcurrentLimit);
      requests := CacheChunk(db, ws, assets, i, end, token, net, requests, old(db.files));
      chunks := chunks + [chunk];
      i := end;
    }
    assert assets[..i] == assets;
    assert assets[i..] == [];
  }

  /** Lines 117-136 of the earlier version: every asset fetched directly, all
      at once, with `Promise.allSettled` waiting for all of them. */
  method CacheAll(db: Db, ws: nat, assets: seq<Asset>, net: nat -> FetchOutcome)
      returns (requests: seq<Request>)
    modifies db`files
    ensures db.files == old(db.files) + CacheRows(Earlier, ws, assets, net)
    ensures requests == Requests(Earlier, "", assets)
  {
    var i := 0;
    requests := [];
    while i < |assets|
      invariant Cached(Earlier, ws, assets, i, "", net, db.files, old(db.files), requests)
    {
      requests := CacheAt(Earlier, db, ws, assets, i, "", net, requests, old(db.files));
      i := i + 1;
    }
    assert assets[..i] == assets;
  }
}
