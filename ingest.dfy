/** The part of `importSlackZip` both versions share: discovery, the
    workspace row, users and channels, the message files and their batches.
    Files are processed in `completion` order: each `processFile` pushes its
    messages synchronously after its one `await`, so a file's messages stay
    together, while the order between files is the order in which their
    entries finish decompressing. */
module Ingest {
  import opened Wrappers
  import opened Json
  import opened Text
  import opened Archive
  import opened Normalise
  import opened Assets
  import opened Batching
  import opened Messages
  import opened Store

  /** `file.name.replace('.zip', '')`. */
  function WorkspaceName(fileName: string): string
  {
    ReplaceFirst(fileName, ".zip", "")
  }

  /** Everything the `processFile` calls contribute, in completion order. */
  function Collect(version: Version, completion: seq<Entry>, rootDir: string, channels: seq<Value>, ws: nat): (r: MsgScan)
    requires NoNullish(channels)
    ensures forall i :: 0 <= i < |r.sets| ==> Admissible(version, r.sets[i])
  {
    if completion == [] then MsgScan([], [], false)
    else
      var prev := Collect(version, completion[..|completion| - 1], rootDir, channels, ws);
      var c := FileContribution(version, completion[|completion| - 1], rootDir, channels, ws);
      MsgScan(prev.pushed + c.pushed, prev.sets + c.sets, false)
  }

  /** `{...m, id: undefined}`, the row `bulkAdd` receives for a message. */
  function MessageRow(m: Value): Row
  {
    Spread(m)["id" := Undefined]
  }

  /** A stored message row is the message with `id` cleared and every other
      property kept. */
  lemma MessageRowClearsId(m: Value)
    ensures MessageRow(m).Keys == Spread(m).Keys + {"id"}
    ensures MessageRow(m)["id"] == Undefined
    ensures forall k :: k in Spread(m) && k != "id" ==> MessageRow(m)[k] == Spread(m)[k]
  {
  }

  /** `row` is `m` spread, with `id` present and undefined and every other
      property of `m` kept. */
  predicate IdCleared(row: Row, m: Value)
  {
    row.Keys == Spread(m).Keys + {"id"} && row["id"] == Undefined &&
    forall k :: k in Spread(m) && k != "id" ==> row[k] == Spread(m)[k]
  }

  /** The rows of one `bulkAdd`: each message spread, with `id` cleared and
      every other property kept. */
  function MessageRows(ms: seq<Value>): (rows: seq<Row>)
    ensures |rows| == |ms|
    ensures forall i :: 0 <= i < |ms| ==> rows[i] == MessageRow(ms[i])
    ensures forall i :: 0 <= i < |ms| ==> IdCleared(rows[i], ms[i])
  {
    seq(|ms|, i requires 0 <= i < |ms| => MessageRow(ms[i]))
  }

  /** What the shared part of the import writes and hands on. */
  datatype Ingested = Ingested(
    result: Result<nat, ImportError>,
    workspaces: seq<Workspace>,
    users: seq<Row>,
    channels: seq<Row>,
    messages: seq<Row>,
    batches: seq<seq<Value>>,
    assets: seq<Asset>)

  /** The specification of the shared part, given the key the workspace
      table will hand out next. */
  function Expected(version: Version, fileName: string, entries: seq<Entry>, completion: seq<Entry>, nextId: nat): Ingested
  {
    match Prepare(entries)
    case Failure(err) => Ingested(Failure(err), [], [], [], [], [], [])
    case Success(p) => ExpectedFrom(version, fileName, p, completion, nextId)
  }

  /** What follows a successful discovery: the workspace row, then users,
      channels and the message files. */
  function ExpectedFrom(version: Version, fileName: string, p: Prepared, completion: seq<Entry>, nextId: nat): Ingested
  {
    var ws := nextId;
    var created := [Workspace(ws, WorkspaceName(fileName))];
    var users := NormaliseAll(p.usersData, ws);
    var channels := NormaliseAll(p.channelsData, ws);
    if users.None? || channels.None? then Ingested(Failure(TypeError), created, [], [], [], [], [])
    else
      var c := Collect(version, completion, p.rootDir, p.channelsData.items, ws);
      Ingested(Success(ws), created, users.value, channels.value, MessageRows(c.pushed),
               Chunks(c.pushed, MaxBatchSize), SetAll([], c.sets))
  }

  /** After the first `k` entries to complete: everything pushed and the
      map are what their `processFile` calls contribute. */
  ghost predicate Ran(version: Version, completion: seq<Entry>, k: nat, rootDir: string, channels: seq<Value>, ws: nat,
                      pushed: seq<Value>, entries: seq<Asset>)
  {
    k <= |completion| && NoNullish(channels) &&
    var c := Collect(version, completion[..k], rootDir, channels, ws);
    pushed == c.pushed && entries == SetAll([], c.sets)
  }

  /** The contributions of the first `k + 1` entries are those of the first
      `k` followed by that of entry `k`. */
  lemma CollectSnoc(version: Version, completion: seq<Entry>, k: nat, rootDir: string, channels: seq<Value>, ws: nat)
    requires k < |completion| && NoNullish(channels)
    ensures var prev := Collect(version, completion[..k], rootDir, channels, ws);
      var c := FileContribution(version, completion[k], rootDir, channels, ws);
      Collect(version, completion[..k + 1], rootDir, channels, ws) ==
        MsgScan(prev.pushed + c.pushed, prev.sets + c.sets, false)
  {
    assert completion[..k + 1][..k] == completion[..k];
  }

  /** `processFile` for the entry that completes `k`-th. */
  method ProcessNext(version: Version, completion: seq<Entry>, k: nat, rootDir: string, channels: seq<Value>, ws: nat,
                     batcher: Batcher, filesToCache: AssetMap)
    requires k < |completion| && batcher.Valid() && filesToCache.Valid()
    requires Ran(version, completion, k, rootDir, channels, ws, batcher.Pushed(), filesToCache.entries)
    modifies batcher, filesToCache
    ensures batcher.Valid() && filesToCache.Valid()
    ensures Ran(version, completion, k + 1, rootDir, channels, ws, batcher.Pushed(), filesToCache.entries)
  {
    ghost var prev := Collect(version, completion[..k], rootDir, channels, ws);
    ghost var c := FileContribution(version, completion[k], rootDir, channels, ws);
    CollectSnoc(version, completion, k, rootDir, channels, ws);
    ProcessFile(version, completion[k], rootDir, channels, ws, batcher, filesToCache);
    SetAllAppend([], prev.sets, c.sets);
  }

  /** `processFile` over every entry, then the final flush. */
  method ProcessAll(version: Version, completion: seq<Entry>, rootDir: string, channels: seq<Value>, ws: nat)
      returns (batches: seq<seq<Value>>, assets: seq<Asset>)
    requires NoNullish(channels)
    ensures batches == Chunks(Collect(version, completion, rootDir, channels, ws).pushed, MaxBatchSize)
    ensures assets == SetAll([], Collect(version, completion, rootDir, channels, ws).sets)
  {
    var batcher := new Batcher();
    var filesToCache := new AssetMap();
    var k := 0;
    assert completion[..0] == [];
    while k < |completion|
      invariant batcher.Valid() && filesToCache.Valid()
      invariant Ran(version, completion, k, rootDir, channels, ws, batcher.Pushed(), filesToCache.entries)
    {
      ProcessNext(version, completion, k, rootDir, channels, ws, batcher, filesToCache);
      k := k + 1;
    }
    assert completion[..k] == completion;
    batcher.Finish();
    batches := batcher.batches;
    assets := filesToCache.entries;
  }

  /** The rows of two runs of messages are the rows of each, in turn. */
  lemma MessageRowsAppend(a: seq<Value>, b: seq<Value>)
    ensures MessageRows(a + b) == MessageRows(a) + MessageRows(b)
  {
    var l, r := MessageRows(a + b), MessageRows(a) + MessageRows(b);
    assert |l| == |r|;
    forall i | 0 <= i < |l| ensures l[i] == r[i] {
      if i < |a| {
        assert (a + b)[i] == a[i];
      } else {
        assert (a + b)[i] == b[i - |a|];
      }
    }
  }

  /** After the first `b` batches are written, the rows of their messages follow `messages0`. */
  ghost predicate Written(batches: seq<seq<Value>>, b: nat, messages0: seq<Row>, messages: seq<Row>)
  {
    b <= |batches| && messages == messages0 + MessageRows(Flatten(batches[..b]))
  }

  /** One `bulkAdd` of batch `b`. */
  method WriteBatch(db: Db, batches: seq<seq<Value>>, b: nat, ghost messages0: seq<Row>)
    requires b < |batches| && Written(batches, b, messages0, db.messages)
    modifies db`messages
    ensures Written(batches, b + 1, messages0, db.messages)
  {
    WrittenSnoc(batches, b, messages0, db.messages);
    db.BulkAddMessages(MessageRows(batches[b]));
  }

  /** Writing batch `b` after the first `b` extends `Written` by one batch. */
  lemma WrittenSnoc(batches: seq<seq<Value>>, b: nat, messages0: seq<Row>, messages: seq<Row>)
    requires b < |batches| && Written(batches, b, messages0, messages)
    ensures Written(batches, b + 1, messages0, messages + MessageRows(batches[b]))
  {
    var pre := Flatten(batches[..b]);
    assert batches[..b + 1] == batches[..b] + [batches[b]];
    FlattenSnoc(batches[..b], batches[b]);
    MessageRowsAppend(pre, batches[b]);
    RowsAssoc(messages0, MessageRows(pre), MessageRows(batches[b]));
  }

  /** Concatenation of row runs is associative. */
  lemma RowsAssoc(a: seq<Row>, b: seq<Row>, c: seq<Row>)
    ensures (a + b) + c == a + (b + c)
  {
  }

  /** `for (const batch of messageBatches) await db.messages.bulkAdd(batch.map(...))`. */
  method WriteBatches(db: Db, batches: seq<seq<Value>>)
    modifies db`messages
    ensures db.messages == old(db.messages) + MessageRows(Flatten(batches))
  {
    var b := 0;
    assert batches[..0] == [];
    while b < |batches|
      invariant Written(batches, b, old(db.messages), db.messages)
    {
      WriteBatch(db, batches, b, old(db.messages));
      b := b + 1;
    }
    assert batches[..b] == batches;
  }


  /** Lines 4-117 of `importSlackZip` (identical in both versions but for
      which file objects are recorded). */
  method IngestArchive(version: Version, db: Db, fileName: string, entries: seq<Entry>, completion: seq<Entry>)
      returns (r: Result<nat, ImportError>, assets: seq<Asset>)
    requires db.Valid()
    modifies db`workspaces, db`nextId, db`users, db`channels, db`messages
    ensures db.Valid()
    ensures var e := Expected(version, fileName, entries, completion, old(db.nextId));
      r == e.result && assets == e.assets &&
      db.workspaces == old(db.workspaces) + e.workspaces &&
      db.users == old(db.users) + e.users &&
      db.channels == old(db.channels) + e.channels &&
      db.messages == old(db.messages) + e.messages
  {
    var usersIndex := FindUsersEntry(entries);
    if usersIndex.None? {
      return Failure(MissingUsers), [];
    }
    var usersFile := entries[usersIndex.value];
    var rootDir := RootDir(usersFile.name);
    var channelsIndex := LookupFile(entries, rootDir + ChannelsFile);
    if channelsIndex.None? {
      return Failure(MissingChannels), [];
    }
    var channelsFile := entries[channelsIndex.value];
    if usersFile.content.None? || channelsFile.content.None? {
      return Failure(SyntaxError), [];
    }
    var prepared := Prepared(rootDir, usersFile.content.value, channelsFile.content.value);
    assert Prepare(entries) == Success(prepared);
    r, assets := IngestPrepared(version, db, fileName, prepared, completion);
  }

  /** Lines 29-117 of `importSlackZip`, once both files are found and parsed. */
  method IngestPrepared(version: Version, db: Db, fileName: string, p: Prepared, completion: seq<Entry>)
      returns (r: Result<nat, ImportError>, assets: seq<Asset>)
    requires db.Valid()
    modifies db`workspaces, db`nextId, db`users, db`channels, db`messages
    ensures db.Valid()
    ensures var e := ExpectedFrom(version, fileName, p, completion, old(db.nextId));
      r == e.result && assets == e.assets &&
      db.workspaces == old(db.workspaces) + e.workspaces &&
      db.users == old(db.users) + e.users &&
      db.channels == old(db.channels) + e.channels &&
      db.messages == old(db.messages) + e.messages
  {
    var ws := db.AddWorkspace(WorkspaceName(fileName));
    var usersToInsert := NormaliseAll(p.usersData, ws);
    var channelsToInsert := NormaliseAll(p.channelsData, ws);
    if usersToInsert.None? || channelsToInsert.None? {
      return Failure(TypeError), [];
    }
    db.BulkAddUsers(usersToInsert.value);
    db.BulkAddChannels(channelsToInsert.value);

    var batches;
    batches, assets := ProcessAll(version, completion, p.rootDir, p.channelsData.items, ws);
    ghost var pushed := Collect(version, completion, p.rootDir, p.channelsData.items, ws).pushed;
    WriteBatches(db, batches);
    ChunksFlatten(pushed, MaxBatchSize);
    r := Success(ws);
  }

  // ---- Properties of the specification ----

  /** The shape of a successful import. */
  lemma ExpectedSuccess(version: Version, fileName: string, entries: seq<Entry>, completion: seq<Entry>, nextId: nat)
    requires Expected(version, fileName, entries, completion, nextId).result.Success?
    ensures Prepare(entries).Success?
    ensures var p := Prepare(entries).value;
      p.usersData.Arr? && p.channelsData.Arr? && NoNullish(p.channelsData.items) &&
      NormaliseAll(p.usersData, nextId).Some? && NormaliseAll(p.channelsData, nextId).Some? &&
      var c := Collect(version, completion, p.rootDir, p.channelsData.items, nextId);
      Expected(version, fileName, entries, completion, nextId) ==
        Ingested(Success(nextId), [Workspace(nextId, WorkspaceName(fileName))],
                 NormaliseAll(p.usersData, nextId).value, NormaliseAll(p.channelsData, nextId).value,
                 MessageRows(c.pushed), Chunks(c.pushed, MaxBatchSize), SetAll([], c.sets))
  {
  }

  /** A missing `users.json` or `channels.json`, or one that does not parse,
      fails before anything is written. */
  lemma FailsBeforeWriting(version: Version, fileName: string, entries: seq<Entry>, completion: seq<Entry>, nextId: nat)
    requires Prepare(entries).Failure?
    ensures var e := Expected(version, fileName, entries, completion, nextId);
      e.result == Failure(Prepare(entries).error) &&
      e.workspaces == [] && e.users == [] && e.channels == [] && e.messages == [] && e.assets == []
  {
  }

  /** `users.json` or `channels.json` that parses but is not an array, or
      holds a `null` element, throws in `map` after the workspace row is
      added: the import fails and leaves that workspace row without users,
      channels or messages. */
  lemma OrphanWorkspaceOnTypeError(version: Version, fileName: string, entries: seq<Entry>, completion: seq<Entry>, nextId: nat)
    requires Prepare(entries).Success?
    requires var p := Prepare(entries).value;
      !(p.usersData.Arr? && NoNullish(p.usersData.items)) ||
      !(p.channelsData.Arr? && NoNullish(p.channelsData.items))
    ensures var e := Expected(version, fileName, entries, completion, nextId);
      e.result == Failure(TypeError) &&
      e.workspaces == [Workspace(nextId, WorkspaceName(fileName))] &&
      e.users == [] && e.channels == [] && e.messages == [] && e.assets == []
  {
    var p := Prepare(entries).value;
    assert NormaliseAll(p.usersData, nextId).None? || NormaliseAll(p.channelsData, nextId).None?;
  }

  /** One row per element, in order, each keeping the element's origin `id` as `slackId`. */
  predicate SlackIdsKept(rows: seq<Row>, items: seq<Value>)
  {
    |rows| == |items| &&
    forall i :: 0 <= i < |rows| ==>
      SlackIdKey in rows[i] && !Nullish(items[i]) && rows[i][SlackIdKey] == Prop(items[i], IdKey)
  }

  /** On success, one user row per element of `users.json` and one channel
      row per element of `channels.json`, in order, each with `slackId` set
      to the element's origin `id`. */
  lemma CountsPreserved(version: Version, fileName: string, entries: seq<Entry>, completion: seq<Entry>, nextId: nat)
    requires Expected(version, fileName, entries, completion, nextId).result.Success?
    ensures Prepare(entries).Success?
    ensures var p := Prepare(entries).value;
      var e := Expected(version, fileName, entries, completion, nextId);
      p.usersData.Arr? && p.channelsData.Arr? &&
      SlackIdsKept(e.users, p.usersData.items) && SlackIdsKept(e.channels, p.channelsData.items)
  {
    ExpectedSuccess(version, fileName, entries, completion, nextId);
    var p := Prepare(entries).value;
    NormalisedSlackIds(p.usersData, nextId);
    NormalisedSlackIds(p.channelsData, nextId);
  }

  /** A table file that `map` can walk: an array with no nullish element. */
  predicate MappableTable(v: Value)
  {
    v.Arr? && NoNullish(v.items)
  }

  /** The converse of `ExpectedSuccess`: an archive whose users file and
      `channels.json` are found, parse, and hold arrays without nullish
      elements imports successfully under the next workspace id, with one
      user row and one channel row per element, in order. */
  lemma ValidArchiveImports(version: Version, fileName: string, entries: seq<Entry>, completion: seq<Entry>, nextId: nat)
    requires FindUsersEntry(entries).Some?
    requires var u := FindUsersEntry(entries).value;
      var c := LookupFile(entries, RootDir(entries[u].name) + ChannelsFile);
      c.Some? && entries[u].content.Some? && entries[c.value].content.Some? &&
      MappableTable(entries[u].content.value) && MappableTable(entries[c.value].content.value)
    ensures var e := Expected(version, fileName, entries, completion, nextId);
      var u := FindUsersEntry(entries).value;
      var c := LookupFile(entries, RootDir(entries[u].name) + ChannelsFile).value;
      e.result == Success(nextId) &&
      SlackIdsKept(e.users, entries[u].content.value.items) &&
      SlackIdsKept(e.channels, entries[c].content.value.items)
  {
    var p := Prepare(entries).value;
    NormalisedSlackIds(p.usersData, nextId);
    NormalisedSlackIds(p.channelsData, nextId);
  }

  lemma NormalisedSlackIds(data: Value, ws: nat)
    requires NormaliseAll(data, ws).Some?
    ensures data.Arr? && SlackIdsKept(NormaliseAll(data, ws).value, data.items)
  {
  }

  lemma AllFromSomeChannelAppend(a: seq<Value>, b: seq<Value>, ws: nat, channels: seq<Value>)
    requires NoNullish(channels)
    requires AllFromSomeChannel(a, ws, channels) && AllFromSomeChannel(b, ws, channels)
    ensures AllFromSomeChannel(a + b, ws, channels)
  {
    forall i | 0 <= i < |a + b| ensures FromSomeChannel((a + b)[i], ws, channels) {
      if i < |a| { assert (a + b)[i] == a[i]; } else { assert (a + b)[i] == b[i - |a|]; }
    }
  }

  /** Every message pushed by the files carries the new workspace id and the
      origin `id` of some channel of `channels.json`. */
  lemma {:induction false} CollectTagged(version: Version, completion: seq<Entry>, rootDir: string, channels: seq<Value>, ws: nat)
    requires NoNullish(channels)
    ensures AllFromSomeChannel(Collect(version, completion, rootDir, channels, ws).pushed, ws, channels)
  {
    if completion != [] {
      var init := completion[..|completion| - 1];
      var last := completion[|completion| - 1];
      CollectTagged(version, init, rootDir, channels, ws);
      ContributionFromSomeChannel(version, last, rootDir, channels, ws);
      var prev := Collect(version, init, rootDir, channels, ws).pushed;
      var c := FileContribution(version, last, rootDir, channels, ws).pushed;
      assert Collect(version, completion, rootDir, channels, ws).pushed == prev + c;
      AllFromSomeChannelAppend(prev, c, ws, channels);
    }
  }

  /** Every recordable file object of every collected message has its `set` call. */
  lemma {:induction false} CollectRecords(version: Version, completion: seq<Entry>, rootDir: string, channels: seq<Value>, ws: nat)
    requires NoNullish(channels)
    ensures var c := Collect(version, completion, rootDir, channels, ws);
      AllFilesIn(version, c.pushed, c.sets)
  {
    if completion != [] {
      var init := completion[..|completion| - 1];
      var last := completion[|completion| - 1];
      CollectRecords(version, init, rootDir, channels, ws);
      ContributionRecords(version, last, rootDir, channels, ws);
      var prev := Collect(version, init, rootDir, channels, ws);
      var c := FileContribution(version, last, rootDir, channels, ws);
      AllFilesInAppend(version, prev.pushed, prev.sets, c.pushed, c.sets);
    }
  }

  /** Every recordable file object of message `m` has an entry under its id in `assets`. */
  predicate FilesMapped(version: Version, m: Value, assets: seq<Asset>)
  {
    !Nullish(m) ==>
      forall j :: 0 <= j < |FilesOf(m)| && Recordable(version, FilesOf(m)[j]) ==>
        Lookup(assets, Prop(FilesOf(m)[j], "id")).Some?
  }

  /** `filesToCache` holds an entry for every file object of every stored
      message that the version accepts: in the current version every image,
      video or PDF with truthy `id`, `url_private` and `mimetype`; in the
      earlier version every file object with those three truthy. */
  lemma AssetsCoverFiles(version: Version, fileName: string, entries: seq<Entry>, completion: seq<Entry>, nextId: nat)
    requires Expected(version, fileName, entries, completion, nextId).result.Success?
    ensures var e := Expected(version, fileName, entries, completion, nextId);
      forall i :: 0 <= i < |Flatten(e.batches)| ==> FilesMapped(version, Flatten(e.batches)[i], e.assets)
  {
    ExpectedSuccess(version, fileName, entries, completion, nextId);
    var p := Prepare(entries).value;
    var c := Collect(version, completion, p.rootDir, p.channelsData.items, nextId);
    var e := Expected(version, fileName, entries, completion, nextId);
    ChunksFlatten(c.pushed, MaxBatchSize);
    assert Flatten(e.batches) == c.pushed;
    CollectRecords(version, completion, p.rootDir, p.channelsData.items, nextId);
    forall i | 0 <= i < |c.pushed| ensures FilesMapped(version, c.pushed[i], e.assets) {
      MessageFilesMapped(version, c.pushed[i], c.sets);
    }
  }

  /** A message whose recordable file objects all had their `set` calls has
      them all in the map those calls build. */
  lemma MessageFilesMapped(version: Version, m: Value, sets: seq<Asset>)
    requires FilesIn(version, m, sets)
    ensures FilesMapped(version, m, SetAll([], sets))
  {
    if !Nullish(m) {
      forall j | 0 <= j < |FilesOf(m)| && Recordable(version, FilesOf(m)[j])
        ensures Lookup(SetAll([], sets), Prop(FilesOf(m)[j], "id")).Some?
      {
        SetAllHasKey([], sets, FileAsset(FilesOf(m)[j]));
      }
    }
  }

  /** A stored message row: the workspace id, a channel's origin `id` as
      `channelId`, and a cleared local `id`. */
  predicate StoredTagged(row: Row, ws: nat, channels: seq<Value>)
    requires NoNullish(channels)
  {
    "workspaceId" in row && row["workspaceId"] == NumOf(ws) &&
    "id" in row && row["id"] == Undefined &&
    "channelId" in row && exists j :: 0 <= j < |channels| && row["channelId"] == Prop(channels[j], "id")
  }

  /** A row built from a tagged message keeps its tags and clears `id`. */
  lemma MessageRowsTagged(ms: seq<Value>, ws: nat, channels: seq<Value>)
    requires NoNullish(channels) && AllFromSomeChannel(ms, ws, channels)
    ensures forall i :: 0 <= i < |ms| ==> StoredTagged(MessageRows(ms)[i], ws, channels)
  {
    var rows := MessageRows(ms);
    forall i | 0 <= i < |ms| ensures StoredTagged(rows[i], ws, channels) {
      assert FromSomeChannel(ms[i], ws, channels);
      var j :| 0 <= j < |channels| && TaggedWith(ms[i], ws, Prop(channels[j], "id"));
      assert rows[i] == ms[i].fields["id" := Undefined];
    }
  }

  /** Every stored message row has the new workspace id, a channel's origin
      `id` as `channelId`, and a cleared local `id`. */
  lemma MessagesTagged(version: Version, fileName: string, entries: seq<Entry>, completion: seq<Entry>, nextId: nat)
    requires Expected(version, fileName, entries, completion, nextId).result.Success?
    ensures Prepare(entries).Success? && Prepare(entries).value.channelsData.Arr?
    ensures NoNullish(Prepare(entries).value.channelsData.items)
    ensures var e := Expected(version, fileName, entries, completion, nextId);
      forall i :: 0 <= i < |e.messages| ==> StoredTagged(e.messages[i], nextId, Prepare(entries).value.channelsData.items)
  {
    ExpectedSuccess(version, fileName, entries, completion, nextId);
    var p := Prepare(entries).value;
    var channels := p.channelsData.items;
    var pushed := Collect(version, completion, p.rootDir, channels, nextId).pushed;
    assert Expected(version, fileName, entries, completion, nextId).messages == MessageRows(pushed);
    CollectTagged(version, completion, p.rootDir, channels, nextId);
    MessageRowsTagged(pushed, nextId, channels);
  }

  /** The message batches: all but the last hold exactly 10,000 messages, the
      last holds 1 to 10,000, and together they are the pushed messages in
      push order. */
  lemma BatchesShape(version: Version, fileName: string, entries: seq<Entry>, completion: seq<Entry>, nextId: nat)
    requires Expected(version, fileName, entries, completion, nextId).result.Success?
    ensures var e := Expected(version, fileName, entries, completion, nextId);
      (forall i :: 0 <= i < |e.batches| - 1 ==> |e.batches[i]| == MaxBatchSize) &&
      (e.batches != [] ==> 1 <= |e.batches[|e.batches| - 1]| <= MaxBatchSize) &&
      MessageRows(Flatten(e.batches)) == e.messages
  {
    ExpectedSuccess(version, fileName, entries, completion, nextId);
    var p := Prepare(entries).value;
    var pushed := Collect(version, completion, p.rootDir, p.channelsData.items, nextId).pushed;
    ChunkSizes(pushed, MaxBatchSize);
    ChunksFlatten(pushed, MaxBatchSize);
  }

  /** `filesToCache` has one entry per file id, each admissible for the
      version: truthy id, URL and MIME type, and in the current version an
      image, video or PDF type. */
  lemma AssetsAdmissible(version: Version, fileName: string, entries: seq<Entry>, completion: seq<Entry>, nextId: nat)
    ensures var a := Expected(version, fileName, entries, completion, nextId).assets;
      DistinctKeys(a) && forall i :: 0 <= i < |a| ==> Admissible(version, a[i])
  {
    match Prepare(entries)
    case Failure(_) =>
    case Success(p) =>
      if NormaliseAll(p.usersData, nextId).Some? && NormaliseAll(p.channelsData, nextId).Some? {
        var c := Collect(version, completion, p.rootDir, p.channelsData.items, nextId);
        SetAllAdmissible(version, [], c.sets);
      }
  }
}
