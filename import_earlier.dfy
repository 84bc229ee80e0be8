/** The earlier `importSlackZip` (slack-export-viewer/src/lib/import.ts):
    the same ingestion with an unfiltered `filesToCache`, then every asset
    fetched directly at once, storing whatever blob comes back. */
module ImportEarlier {
  import opened Wrappers
  import opened Archive
  import opened Assets
  import opened Store
  import opened Caching
  import opened Ingest

  /** `importSlackZip(file)` of the earlier version; its parameters are those
      of the current one but for the token, which it never reads. */
  method ImportSlackZip(db: Db, fileName: string, entries: seq<Entry>, completion: seq<Entry>,
                        net: nat -> FetchOutcome)
      returns (r: Result<nat, ImportError>, requests: seq<Request>)
    requires db.Valid()
    requires multiset(completion) == multiset(entries)
    modifies db`workspaces, db`nextId, db`users, db`channels, db`messages, db`files
    ensures db.Valid()
    ensures var e := Expected(Earlier, fileName, entries, completion, old(db.nextId));
      r == e.result &&
      db.workspaces == old(db.workspaces) + e.workspaces &&
      db.users == old(db.users) + e.users &&
      db.channels == old(db.channels) + e.channels &&
      db.messages == old(db.messages) + e.messages &&
      db.files == old(db.files) + (if r.Success? then CacheRows(Earlier, r.value, e.assets, net) else []) &&
      requests == (if r.Success? then Requests(Earlier, "", e.assets) else [])
    ensures db.sections == old(db.sections)
  {
    var assets;
    r, assets := IngestArchive(Earlier, db, fileName, entries, completion);
    if r.Failure? {
      return r, [];
    }
    requests := CacheAll(db, r.value, assets, net);
  }

  /** Every asset is fetched directly from its origin URL, exactly once. */
  lemma AlwaysDirect(fileName: string, entries: seq<Entry>, completion: seq<Entry>, nextId: nat)
    ensures var assets := Expected(Earlier, fileName, entries, completion, nextId).assets;
      var rs := Requests(Earlier, "", assets);
      |rs| == |assets| && forall i :: 0 <= i < |rs| ==> rs[i] == Direct(assets[i].1.url)
  {
    var assets := Expected(Earlier, fileName, entries, completion, nextId).assets;
    RequestsOnePerAsset(Earlier, "", assets);
  }

  /** A file row is stored for an asset exactly when its fetch resolved and
      its blob could be read, whatever the response's `ok` flag says. */
  lemma StoresEveryReadBlob(ws: nat, assets: seq<Asset>, net: nat -> FetchOutcome, row: FileRow)
    ensures row in CacheRows(Earlier, ws, assets, net) <==>
      row.workspaceId == ws &&
      exists i :: 0 <= i < |assets| && assets[i].0 == row.fileId && assets[i].1.mimetype == row.mimeType &&
        net(i).Resolved? && net(i).response.blob == Some(row.blob)
  {
    CacheRowsExactly(Earlier, ws, assets, net, row);
  }
}
