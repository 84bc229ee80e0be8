# Slack export import, modelled in Dafny

This project models the core of a browser-side Slack export viewer: the
function `importSlackZip`, which turns a Slack export archive into rows of a
local IndexedDB database, and the home page's `handleDelete`, which removes
a workspace and everything stored under it.

`importSlackZip` exists in two versions, and both are modelled:

- the earlier one (`slack-export-viewer/src/lib/import.ts`);
- the current one (`src/lib/import.ts`). It adds a MIME filter on the files
  it caches, a fetch through `/api/proxy` when a Slack token is stored, and
  caching in chunks of five.

The import steps, in order, with the module that models each:

- **Root discovery** (`Archive`). Find the first non-directory entry whose
  name ends with `users.json`. The root directory is that name with the
  first occurrence of `users.json` removed.
- **`channels.json` lookup** (`Archive`). Find `channels.json` under that
  root.
- **Workspace row.** Add one workspace row.
- **User and channel rows** (`Normalise`). Copy each user and channel. Tag
  it with the workspace id, keep its origin `id` as `slackId`, and clear
  `id`.
- **Message files** (`Messages`). Walk every `<channel>/<day>.json` entry,
  matching the channel by name. Tag each message with the workspace id and
  the channel's origin `id`, and push it into 10,000-message batches
  (`Batching`).
- **File objects** (`Assets`). Record the file objects attached to messages
  in an insertion-ordered, last-write-wins map.
- **Messages written** (`Ingest`). Write the batches to the store.
- **Assets cached** (`Caching`). Fetch each recorded asset and cache its
  blob.

`Store` holds the tables as sequences in a `Db` class. `Import` and
`ImportEarlier` assemble the two versions of the whole import. `HomePage`
holds the delete.

The modelling choices are these:

- **Imperative code keeps its form.** This covers the message loop, the
  batch buffer, the `filesToCache` map, the chunked cache loop and the table
  writes. Each becomes a method over a class or the `Db` tables, proved
  against a specification function. `Expected` is the function for the whole
  ingestion; `CacheRows` and `Requests` are the functions for caching.
- **Pure code becomes functions.** This covers the `map`-with-spread
  normalisation and the path split.
- **JSON values become `Json.Value`.** JavaScript's property reads and
  truthiness are modelled explicitly: reading a property of `null` or
  `undefined` throws, and so does writing a property of a primitive in
  module strict mode.
- **Decompression and `JSON.parse` are an input.** Each archive entry
  arrives already parsed, or `None` when it cannot be read or parsed.
- **Processing order is an input.** `processFile` runs concurrently over all
  entries. Each file's messages are pushed contiguously after its single
  `await`, so the order between files is modelled as `completion`, the order
  in which the entries finish reading.
- **The network is an input.** `net(i)` is what fetching the `i`-th recorded
  asset yields.
- **The stored token is an input.** It is the `Option<string>` held in
  `localStorage`.

Two behaviours of the code are easy to miss, and the model states them:

- **Parse failures come first.** A parse failure of `users.json` or
  `channels.json` happens before the workspace row is added, so it leaves
  nothing behind. An orphan workspace row arises only when one of them
  parses but is not an array, or holds a `null` element. In that case `map`
  throws after the row was added (`Ingest.OrphanWorkspaceOnTypeError`).
- **A failing message keeps the messages before it.** The `try` in
  `processFile` wraps the message loop as well as the parse. A message that
  throws (a non-object, a `null` file object, or, in the current version, a
  file object with truthy id, URL and MIME type whose MIME type is not a
  string) abandons the rest of its file, but the messages already pushed
  from that file stay (`Messages.ScanMessagesKeepsEarlier`,
  `Messages.ScanMessagesStops`). A file contributes no message at all when
  it cannot be read or parsed, when its parsed content is not an array
  (`for...of` throws at once, or walks characters that throw), or when its
  first message throws (`Messages.ContributionPushedExactly`).

## Model

| member | source | states |
|---|---|---|
| Archive.FindUsersEntry | src/lib/import.ts:9-11 | the index of the FIRST non-directory entry whose name ends with `users.json`; `None` exactly when no entry qualifies |
| Archive.LookupFile | src/lib/import.ts:19 | `zip.file(path)`: an entry named exactly `path` that is not a directory; `None` exactly when there is none |
| Archive.RootDirIsPrefix | src/lib/import.ts:17 | when `users.json` occurs only as the suffix, root + `users.json` is the path |
| Archive.RootDirRemovesFirstOccurrence | src/lib/import.ts:17 | `replace` removes the first occurrence: the root of `users.json/users.json` is `/users.json`, which is not a prefix of the path |
| Archive.Prepare | src/lib/import.ts:9-25 | `MissingUsers` exactly when no users file exists; `MissingChannels` exactly when a users file exists but no non-directory entry is named root + `channels.json`; on success the root comes from the FIRST users file and `channels.json` sits at root + `channels.json`, with both contents parsed; `SyntaxError` exactly when both files are found and one cannot be read or parsed; never a `TypeError` |
| Archive.MissingChannelsRejected | src/lib/import.ts:19-22 | with no `channels.json` beside the users file, the import fails with `MissingChannels` |
| Normalise.NormaliseRow | src/lib/import.ts:34-39 | the row copies every own property and adds `workspaceId`, `slackId` = origin `id`, and `id` = undefined |
| Normalise.NormaliseItems | src/lib/import.ts:34-46 | defined exactly when no element is nullish; then the same length and order, with each row normalised |
| Normalise.NormaliseAll | src/lib/import.ts:34-46 | a TypeError (`None`) exactly when the data is not an array or holds a nullish element; otherwise one row per element, in order |
| Text.IndexOf | src/lib/import.ts:17 | the first position where the pattern occurs; `None` exactly when it occurs nowhere |
| Text.SplitCount | src/lib/import.ts:66 | `split(/[/\\]/)` yields one more segment than there are separators, keeping empty segments |
| Text.SplitSegmentsSeparatorFree | src/lib/import.ts:66 | no segment contains `/` or `\` |
| Text.SplitJoin | src/lib/import.ts:66 | joining the segments with `/` gives back the input with every `\` turned into `/` |
| Text.TwoParts | src/lib/import.ts:66-67 | a path has exactly two parts iff it holds exactly one separator; the parts are what lies before and after it |
| Text.TwoPartsWitness | src/lib/import.ts:66-69 | a path with two parts has a separator at some position, and `[channelName, fileName]` are the text before and after it |
| Text.OnePart | src/lib/import.ts:66 | a path with no separator is its own single part |
| Messages.StripRoot | src/lib/import.ts:62-64 | a path starting with the root loses exactly that prefix; any other path is kept |
| Messages.FindChannel | src/lib/import.ts:70 | the FIRST channel whose `name` equals the directory; `None` exactly when no channel has that name |
| Messages.MatchChannel | src/lib/import.ts:59-72 | an entry is a message file iff it is not a directory, ends in `.json`, splits into exactly two parts after root stripping, and its first part names a channel; the channel chosen is the first one with that name (`find`) |
| Messages.Tag | src/lib/import.ts:77-78 | the message gains `workspaceId` and `channelId` = the channel's origin `id`; every other property is kept |
| Messages.ScanMessagesTagged | src/lib/import.ts:76-78 | every pushed message is an object carrying the workspace id and the channel's origin `id`; at most one is pushed per element |
| Messages.ScanMessagesStops | src/lib/import.ts:74-101 | once a message throws, the rest of the file changes nothing |
| Messages.ScanMessagesKeepsEarlier | src/lib/import.ts:74-101 | what earlier messages pushed and recorded stays pushed and recorded, even when a later message throws |
| Messages.StepMessageRecords | src/lib/import.ts:76-98 | a message is pushed only after its file objects were walked without a throw, so each recordable one has its `set` call |
| Messages.ScanMessagesRecords | src/lib/import.ts:76-98 | every recordable file object of every pushed message has its `set` call |
| Messages.StepMessageExtends | src/lib/import.ts:76-98 | one message never undoes earlier work: it pushes at most itself, tagged, and only appends `set` calls; an object message is pushed, tagged, with the walk still running, iff no earlier message threw and walking its own `files` does not throw |
| Messages.FirstMessageThrow | src/lib/import.ts:76-92 | the position of the first message that stops the walk (not an object, or its `files` walk throws before `currentBatch.push`), or the array length when none does |
| Messages.Delivered | src/lib/import.ts:76-92 | the messages before the first stopping one, each an object and tagged with the workspace id and the channel id, in order |
| Messages.ScanMessagesPushedExactly | src/lib/import.ts:75-98 | the message loop pushes exactly the messages before the first stopping one, tagged and in order, and reports a throw iff a stopping message exists |
| Messages.NoThrowAllPushed | src/lib/import.ts:76-92 | when every message is an object whose `files` walk does not throw, the whole array is pushed, tagged, in order, and nothing throws |
| Messages.PlainMessagesAllPushed | src/lib/import.ts:76-98 | a file of objects without `files` arrays is pushed whole, tagged, in order, recording nothing |
| Messages.TagEach | src/lib/import.ts:76-78 | one tagged message per element, in order, each carrying the workspace id and the channel id |
| Messages.FileContribution | src/lib/import.ts:58-102 | a file contributes messages only if it matches a channel and could be read and parsed; everything it records is admissible |
| Messages.ContributionPushedExactly | src/lib/import.ts:58-98 | a matched message-day file whose parsed content is an array contributes exactly its messages before the first stopping one, tagged with the matched channel's id, and reports a throw iff a stopping message exists |
| Messages.ContributionRecords | src/lib/import.ts:58-102 | every recordable file object of a message a file contributes has its `set` call |
| Messages.ContributionTagged | src/lib/import.ts:70-78 | a file's messages carry the origin `id` of the FIRST channel with the file's directory name |
| Messages.ContributionFromSomeChannel | src/lib/import.ts:70-78 | every message a file contributes is tagged with the id of some channel of `channels.json` |
| Messages.RecordFile | src/lib/import.ts:82-89 | one turn of the files loop issues the `set` call `ScanFiles` prescribes for one more file object, or reports the throw |
| Messages.RecordFiles | src/lib/import.ts:81-90 | the inner `for (const f of msg.files)` loop issues exactly the `set` calls of `ScanFiles`, and reports whether it threw |
| Messages.ProcessMessage | src/lib/import.ts:76-98 | one turn of the message loop extends the pushed messages and the map exactly as `ScanMessages` does for one more element |
| Messages.WalkMessages | src/lib/import.ts:76-98 | the message loop extends the pushed messages by exactly those of `ScanMessages` and applies its `set` calls to the map |
| Messages.ProcessFile | src/lib/import.ts:58-102 | `processFile` appends the file's contribution to the pushed messages and applies its `set` calls to `filesToCache` |
| Assets.StepFile | src/lib/import.ts:83-86 | a file object is recorded, as `[f.id, {url_private, mimetype}]`, iff it is non-nullish and admissible (truthy id, URL and MIME type, and in the current version an image, video or PDF type); it throws iff the file object is nullish or, in the current version, id, URL and MIME type are all truthy and the MIME type is not a string; the earlier version (slack-export-viewer/src/lib/import.ts, lines 83-84) records every non-nullish file object with the three truthy |
| Assets.StepScan | src/lib/import.ts:82-89 | one more file object keeps every recorded `set` call admissible |
| Assets.RecordedAssets | src/lib/import.ts:82-89 | the `set` calls of a throw-free walk: one for each recordable file object and nothing else |
| Assets.FirstThrow | src/lib/import.ts:82-89 | the position of the first file object whose inspection throws, or the list length when none does |
| Assets.ScanFilesExactly | src/lib/import.ts:82-89 | the walk over `msg.files` issues one `set` call per recordable file object before the first throw, in order, and throws iff some file object throws |
| Assets.ScanFilesRecordsEvery | src/lib/import.ts:82-89 | when the walk does not throw, every recordable file object has its `set` call |
| Assets.ScanFilesStops | src/lib/import.ts:82-89 | after a file object throws, the rest of the list issues no further calls |
| Assets.KeyIndex | src/lib/import.ts:86 | the position of a key in the map; `None` exactly when the key is absent |
| Assets.KeyIndexAt | src/lib/import.ts:86 | with distinct keys, the key at a position is found exactly at that position |
| Assets.MapSet | src/lib/import.ts:86 | `Map.set`: keys stay distinct; an existing key keeps its position and takes the new value, a new key is appended; nothing else changes |
| Assets.MapSetLookup | src/lib/import.ts:86 | after `set(k, v)`, looking up `k` gives `v` and every other key gives what it gave before |
| Assets.SetAllAppend | src/lib/import.ts:86 | applying two runs of `set` calls in turn is applying their concatenation |
| Assets.SetAllLastWriteWins | src/lib/import.ts:86 | after a run of `set` calls, each key maps to the value of its LAST call, and a key never set keeps its value |
| Assets.SetAllHasKey | src/lib/import.ts:86 | after a run of `set` calls, every key one of them wrote is in the map |
| Assets.SetAllAdmissible | src/lib/import.ts:81-90 | a map built from admissible `set` calls holds only admissible entries |
| Assets.AssetMap.Set | src/lib/import.ts:86 | the map object's `set` updates its entries as `MapSet` and keeps the keys distinct |
| Batching.FlattenSnoc | src/lib/import.ts:95 | flushing one more batch appends its messages to the flushed ones |
| Batching.ChunksFlatten | src/lib/import.ts:51-53 | concatenating the chunks of a sequence gives back the sequence, in order |
| Batching.ChunkSizes | src/lib/import.ts:124-127 | every chunk holds 1 to `k` elements and all but the last hold exactly `k` |
| Batching.ChunksOfFullBatches | src/lib/import.ts:110-112 | full flushed batches followed by a non-empty short remainder are exactly the chunking of their concatenation; an empty remainder adds no batch |
| Batching.Batcher.Push | src/lib/import.ts:92-97 | a push appends the message to everything pushed; the batch is flushed exactly when it reaches 10,000, and the batch invariant is kept |
| Batching.Batcher.Finish | src/lib/import.ts:110-112 | after the final flush, the batches are the 10,000-chunking of every pushed message |
| Store.WithoutWorkspace | src/app/page.tsx:41-43 | the rows that remain are exactly the old rows not belonging to the workspace |
| Store.WithoutWorkspaceKeepsOthers | src/app/page.tsx:41-43 | deleting one workspace's rows leaves every other workspace's rows unchanged, in order, and none of its own |
| Store.WithoutWorkspaceCount | src/app/page.tsx:41-43 | the rows that remain and the workspace's own rows together account for every row of the table |
| Store.AllOthersKept | src/app/page.tsx:41-43 | after deleting one workspace, every other workspace keeps exactly its rows, in order |
| Store.RowsOfAppend | src/app/page.tsx:41-43 | the rows of one workspace in two concatenated tables are the concatenation of its rows in each |
| Store.RemoveWorkspace | src/app/page.tsx:40 | the workspaces that remain are exactly those with another id |
| Store.Db.AddWorkspace | src/lib/import.ts:28-31 | `workspaces.add` appends a row under a fresh key, never used by a present row |
| Caching.TokenOf | src/lib/import.ts:120 | the token is the stored string when it is non-empty, and empty otherwise |
| Caching.RequestFor | src/lib/import.ts:131-135 | the request goes through the proxy, carrying the token, iff the version is current and the token is non-empty; otherwise it goes to the origin URL |
| Caching.CachedBlob | src/lib/import.ts:129-148 | a blob is stored iff the fetch resolved, its body could be read, and `ok` is not false; the earlier version stores the blob whenever the fetch resolved and its body could be read, with no `ok` check (slack-export-viewer/src/lib/import.ts, lines 120-131) |
| Caching.RequestsOnePerAsset | src/lib/import.ts:123-135 | exactly one request per asset, in list order, each for that asset's URL; the proxy is used for all or for none, according to the token |
| Caching.CacheRowsExactly | src/lib/import.ts:128-151 | a file row exists iff some asset's own fetch outcome yields a storable blob; a thrown failure adds no row and affects no other asset |
| Caching.CacheRowsMime | src/lib/import.ts:85-86 | every cached row carries its asset's MIME type, so the current version caches only images, videos and PDFs |
| Caching.CacheOne | src/lib/import.ts:128-149 | one asset's task issues its request and adds a row exactly as `CachedBlob` decides |
| Caching.CacheAt | src/lib/import.ts:128-149 | handling one more asset extends the rows and requests by exactly that asset's |
| Caching.CacheChunk | src/lib/import.ts:127-150 | one chunk `assets[i..i+5]` extends the rows and requests by exactly that chunk's |
| Caching.CacheInChunks | src/lib/import.ts:123-151 | the chunk loop attempts every asset once, in order, in chunks that are the 5-chunking of the list, adding exactly `CacheRows` |
| Caching.CacheAll | slack-export-viewer/src/lib/import.ts:117-136 | the earlier version fetches every asset once, directly, adding exactly `CacheRows` of the earlier version |
| Ingest.Collect | src/lib/import.ts:104-108 | the files' contributions in completion order; every recorded asset is admissible |
| Ingest.ProcessNext | src/lib/import.ts:58-108 | the `processFile` call of the next entry to complete extends the pushed messages and the map by that file's contribution |
| Ingest.MessageRows | src/lib/import.ts:113-116 | the rows of one `bulkAdd`: one per message, in order, each the message spread with `id` present and undefined and every other property kept |
| Ingest.MessageRowClearsId | src/lib/import.ts:115 | `{...m, id: undefined}`: the row handed to `bulkAdd` (whose `++id` key Dexie assigns on insert) has the message's properties plus `id`, `id` is undefined, and every other property keeps its value |
| Ingest.ProcessAll | src/lib/import.ts:51-112 | running `processFile` over the entries in completion order, then flushing, gives the 10,000-chunking of the collected messages and the map built from the collected `set` calls |
| Ingest.WriteBatch | src/lib/import.ts:114-116 | one `bulkAdd` appends exactly the rows of that batch's messages after those of the batches before it |
| Ingest.WriteBatches | src/lib/import.ts:114-117 | writing the batches appends the rows of all their messages, in batch order |
| Ingest.IngestArchive | src/lib/import.ts:4-117 | the tables grow by exactly what `Expected` prescribes, the result and assets are `Expected`'s, and the key invariant is kept; likewise in the earlier version (slack-export-viewer/src/lib/import.ts, lines 4-114) under its own recording rule |
| Ingest.IngestPrepared | src/lib/import.ts:28-117 | once both files are found and parsed: the workspace row, users, channels and messages as `ExpectedFrom` prescribes, with the key invariant kept |
| Ingest.ExpectedSuccess | src/lib/import.ts:24-117 | a successful import parsed both files as arrays without nullish elements, and produced the normalised rows, the message rows, the batches and the map |
| Ingest.FailsBeforeWriting | src/lib/import.ts:13-22 | a missing or unparsable `users.json` or `channels.json` fails before any workspace, user, channel or message row is written; likewise in the earlier version (slack-export-viewer/src/lib/import.ts, lines 13-22) |
| Ingest.OrphanWorkspaceOnTypeError | src/lib/import.ts:28-46 | users or channels data that is not an array, or holds `null`, fails with a TypeError and leaves the new workspace row without any content |
| Ingest.ValidArchiveImports | src/lib/import.ts:9-49 | an archive whose users file and `channels.json` are found, parse, and hold arrays without nullish elements imports successfully under the next workspace id, with one user row and one channel row per element, in order, each with `slackId` = the element's origin `id` |
| Ingest.CountsPreserved | src/lib/import.ts:34-49 | on success, one user row per element of `users.json` and one channel row per element of `channels.json`, in order, each with `slackId` = the element's origin `id`; likewise in the earlier version (slack-export-viewer/src/lib/import.ts, lines 34-49) |
| Ingest.NormalisedSlackIds | src/lib/import.ts:34-46 | a successful `map` gives one row per element, in order, with `slackId` = that element's `id` |
| Ingest.AllFromSomeChannelAppend | src/lib/import.ts:104-108 | messages from several files, each tagged with some channel, are all tagged with some channel together |
| Ingest.CollectTagged | src/lib/import.ts:76-78 | every collected message carries the workspace id and the origin `id` of some channel |
| Ingest.CollectRecords | src/lib/import.ts:104-108 | over all files, every recordable file object of every pushed message has its `set` call |
| Ingest.MessageRowsTagged | src/lib/import.ts:115 | the row handed to `bulkAdd` for a tagged message has the workspace id, a channel's origin `id` and a cleared `id` |
| Ingest.MessagesTagged | src/lib/import.ts:76-78 | every row handed to `bulkAdd` has the new workspace id, a channel's origin `id` as `channelId`, and `id` undefined; likewise in the earlier version (slack-export-viewer/src/lib/import.ts, lines 76-78) |
| Ingest.BatchesShape | src/lib/import.ts:92-97 | all batches but the last hold exactly 10,000 messages, the last holds 1 to 10,000, and together they are the pushed messages in push order; likewise in the earlier version (slack-export-viewer/src/lib/import.ts, lines 89-94) |
| Ingest.AssetsAdmissible | src/lib/import.ts:81-90 | the map has distinct keys and every entry has truthy id, URL and MIME type, with an image, video or PDF type in the current version; in the earlier version (slack-export-viewer/src/lib/import.ts, lines 81-86) the three truthy fields only |
| Ingest.AssetsCoverFiles | src/lib/import.ts:81-90 | every pushed message's recordable file objects have an entry under their id in the map: in the current version each image, video or PDF with truthy id, URL and MIME type; in the earlier version (slack-export-viewer/src/lib/import.ts, lines 81-86) each file object with those three truthy |
| Import.ImportSlackZip | src/lib/import.ts:4-154 | the whole import: tables as `Expected` prescribes, files exactly `CacheRows` on success and none on failure, one request per asset chosen by the token, `sections` untouched |
| Import.CachedTypesCacheable | src/lib/import.ts:85 | only images, videos and PDFs reach the `files` table |
| Import.ProxyIffToken | src/lib/import.ts:120-135 | every asset is fetched through the proxy iff a non-empty token is stored, and directly otherwise |
| ImportEarlier.ImportSlackZip | slack-export-viewer/src/lib/import.ts:4-139 | the earlier import: tables as `Expected` prescribes, files exactly the earlier `CacheRows` on success, the workspace id returned whatever the fetches do |
| ImportEarlier.AlwaysDirect | slack-export-viewer/src/lib/import.ts:118-121 | every asset is fetched exactly once, directly from its URL |
| ImportEarlier.StoresEveryReadBlob | slack-export-viewer/src/lib/import.ts:118-133 | a row is stored for an asset iff its fetch resolved and its blob could be read, whatever `ok` says |
| HomePage.HandleDelete | src/app/page.tsx:35-45 | declined: nothing changes; confirmed: the workspace is gone, no user, channel or message row of it remains, other workspaces' rows are unchanged in order, and `files` and `sections` are untouched |

## Left out

- Decompression and `JSON.parse`: these are foreign libraries. Entries arrive as names with parsed content, `None` for content that cannot be read or parsed.
- IndexedDB and its Dexie wrapper: the tables are sequences. Auto-increment keys of user, channel and message rows are not modelled. A `bulkAdd` or `add` that fails is not modelled. The workspace key is a counter.
- `importedAt` (`new Date()`) is left out of the workspace row. The clock is not modelled.
- `encodeURIComponent` and the proxy URL's text are left out. A proxy request records the asset URL and the token.
- `fetch` semantics: `no-cors` opaque responses, the `res &&` test on an always-present response, and `Blob` reading are not modelled. A fetch outcome is an input: rejected, or resolved with `ok` and an optional blob.
- The order in which the fetches of one chunk finish, and in which the earlier version's fetches finish: the model adds the rows in list order. Rows from concurrent `db.files.add` calls may land in any order.
- Interleaving of `processFile` calls is left out beyond the completion order. Each file's messages are pushed in one synchronous run after its `await`, so a completion order covers every real schedule.
- A message that is an array: JavaScript accepts property writes on arrays, but the model treats every non-object message as a throw.
- Spreading a string or array element of `users.json` or `channels.json`: JavaScript copies indexed characters or elements, while the model copies nothing (`Json.Spread` gives an empty row).
- Map key identity for object-valued file ids: `Map` compares objects by reference, the model by value.
- The order of `Object.values(zip.files)` and `forEach`: the model takes the archive's entry order as given. JavaScript's ordering of integer-like keys and duplicate entry names are not modelled.
- Failure or abort of the delete transaction: the four deletions are applied together, as one step.
- The React page, including `confirm`, which becomes a boolean input; `useLiveQuery`; navigation; and the import UI flags.
- The `/api/proxy` and `/api/ogp` routes, which are HTTP pass-through and HTML scraping.
- `localStorage` is left out; the stored token is an input.
- `console.error` and `console.warn` are left out.
