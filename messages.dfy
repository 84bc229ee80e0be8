/** `processFile`: which archive entries are message-day files, how their
    messages are tagged and batched, and which file objects are recorded. */
module Messages {
  import opened Wrappers
  import opened Json
  import opened Text
  import opened Archive
  import opened Assets
  import opened Batching

  /** `relativePath` without the root prefix, when it has that prefix. */
  function StripRoot(path: string, rootDir: string): (r: string)
    ensures StartsWith(path, rootDir) ==> rootDir + r == path
    ensures !StartsWith(path, rootDir) ==> r == path
  {
    if StartsWith(path, rootDir) then
      assert path == path[..|rootDir|] + path[|rootDir|..];
      path[|rootDir|..]
    else path
  }

  /** The channel object's `name` is exactly the string `name`. */
  predicate NameIs(c: Value, name: string)
    requires !Nullish(c)
  {
    Prop(c, "name") == Str(name)
  }

  predicate NoNullish(vs: seq<Value>)
  {
    forall i :: 0 <= i < |vs| ==> !Nullish(vs[i])
  }

  /** `channelsData.find(c => c.name === channelName)`, as an index. Reading
      `c.name` would throw on a `null` element; the normalisation has already
      thrown on those, so the pipeline only calls this on non-nullish channels. */
  function FindChannel(channels: seq<Value>, name: string): (r: Option<nat>)
    requires NoNullish(channels)
    ensures r.Some? ==> r.value < |channels| && NameIs(channels[r.value], name)
    ensures r.Some? ==> forall j :: 0 <= j < r.value ==> !NameIs(channels[j], name)
    ensures r.None? <==> forall j :: 0 <= j < |channels| ==> !NameIs(channels[j], name)
  {
    if channels == [] then None
    else if NameIs(channels[0], name) then Some(0)
    else match FindChannel(channels[1..], name)
      case None => None
      case Some(k) => Some(k + 1)
  }

  /** The channel a path names, when the entry is a message-day file:
      a non-directory `.json` entry whose root-stripped path splits on `/`
      or `\` into exactly two parts, the first a channel's name. */
  function MatchChannel(e: Entry, rootDir: string, channels: seq<Value>): (r: Option<nat>)
    requires NoNullish(channels)
    ensures r.Some? ==> r.value < |channels|
    ensures r.Some? <==>
      !e.isDir && EndsWith(e.name, ".json") &&
      |Split(StripRoot(e.name, rootDir))| == 2 &&
      exists j :: 0 <= j < |channels| && NameIs(channels[j], Split(StripRoot(e.name, rootDir))[0])
    ensures r.Some? ==> r == FindChannel(channels, Split(StripRoot(e.name, rootDir))[0])
  {
    if e.isDir || !EndsWith(e.name, ".json") then None
    else
      var parts := Split(StripRoot(e.name, rootDir));
      if |parts| != 2 then None
      else FindChannel(channels, parts[0])
  }

  /** `msg.workspaceId = workspaceId; msg.channelId = channel.id`. */
  function Tag(msg: Value, ws: nat, channel: Value): (r: Value)
    requires msg.Obj? && !Nullish(channel)
    ensures r.Obj? && r.fields.Keys == msg.fields.Keys + {"workspaceId", "channelId"}
    ensures r.fields["workspaceId"] == NumOf(ws) && r.fields["channelId"] == Prop(channel, "id")
    ensures forall k :: k in msg.fields && k != "workspaceId" && k != "channelId" ==> r.fields[k] == msg.fields[k]
  {
    Obj(msg.fields["workspaceId" := NumOf(ws)]["channelId" := Prop(channel, "id")])
  }

  /** The elements walked by `if (msg.files && Array.isArray(msg.files)) for (const f of msg.files)`. */
  function FilesOf(msg: Value): seq<Value>
    requires !Nullish(msg)
  {
    var files := Prop(msg, "files");
    if files.Arr? then files.items else []
  }

  /** A pushed message: an object carrying the workspace id and the given channel id. */
  predicate TaggedWith(m: Value, ws: nat, channelId: Value)
  {
    m.Obj? && "workspaceId" in m.fields && m.fields["workspaceId"] == NumOf(ws) &&
    "channelId" in m.fields && m.fields["channelId"] == channelId
  }

  /** What walking a file's message array does: the messages pushed, the
      `set` calls issued, and whether the walk stopped on a throw. */
  datatype MsgScan = MsgScan(pushed: seq<Value>, sets: seq<Asset>, threw: bool)

  /** The `for (const msg of messagesData)` loop inside the `try`. A message
      that is not an object throws on its first property write; a throw while
      walking its files happens before `currentBatch.push(msg)`. Either way
      the rest of the file is abandoned, but what was pushed or recorded
      before stays. */
  function ScanMessages(version: Version, items: seq<Value>, ws: nat, channel: Value): (r: MsgScan)
    requires !Nullish(channel)
    ensures forall i :: 0 <= i < |r.sets| ==> Admissible(version, r.sets[i])
  {
    if items == [] then MsgScan([], [], false)
    else StepMessage(version, ScanMessages(version, items[..|items| - 1], ws, channel), items[|items| - 1], ws, channel)
  }

  /** One turn of the message loop after the earlier messages gave `prev`. */
  function StepMessage(version: Version, prev: MsgScan, msg: Value, ws: nat, channel: Value): (r: MsgScan)
    requires !Nullish(channel)
    requires forall i :: 0 <= i < |prev.sets| ==> Admissible(version, prev.sets[i])
    ensures forall i :: 0 <= i < |r.sets| ==> Admissible(version, r.sets[i])
  {
    if prev.threw then prev
    else if !msg.Obj? then MsgScan(prev.pushed, prev.sets, true)
    else
      var tagged := Tag(msg, ws, channel);
      var fs := ScanFiles(version, FilesOf(tagged));
      MsgScan(prev.pushed + (if fs.threw then [] else [tagged]), prev.sets + fs.sets, fs.threw)
  }

  /** Once a message throws, the rest of the file changes nothing. */
  lemma {:induction false} ScanMessagesStops(version: Version, items: seq<Value>, ws: nat, channel: Value, n: nat)
    requires !Nullish(channel)
    requires n <= |items| && ScanMessages(version, items[..n], ws, channel).threw
    ensures ScanMessages(version, items, ws, channel) == ScanMessages(version, items[..n], ws, channel)
    decreases |items| - n
  {
    if n < |items| {
      assert items[..|items| - 1][..n] == items[..n];
      ScanMessagesStops(version, items[..|items| - 1], ws, channel, n);
    } else {
      assert items[..n] == items;
    }
  }

  /** One turn pushes nothing or the tagged message, and only adds `set` calls. */
  lemma StepMessageExtends(version: Version, prev: MsgScan, msg: Value, ws: nat, channel: Value)
    requires !Nullish(channel)
    requires forall i :: 0 <= i < |prev.sets| ==> Admissible(version, prev.sets[i])
    ensures var r := StepMessage(version, prev, msg, ws, channel);
      prev.sets <= r.sets &&
      (r.pushed == prev.pushed || (msg.Obj? && r.pushed == prev.pushed + [Tag(msg, ws, channel)]))
    ensures msg.Obj? ==>
      var r := StepMessage(version, prev, msg, ws, channel);
      var fs := ScanFiles(version, FilesOf(Tag(msg, ws, channel)));
      (!prev.threw && !fs.threw <==> !r.threw && r.pushed == prev.pushed + [Tag(msg, ws, channel)])
  {
    if !prev.threw && msg.Obj? {
      var fs := ScanFiles(version, FilesOf(Tag(msg, ws, channel)));
      assert prev.sets <= prev.sets + fs.sets;
    }
  }

  /** One turn on an object without a `files` array pushes it, tagged, and records nothing. */
  lemma StepMessagePlain(version: Version, prev: MsgScan, msg: Value, ws: nat, channel: Value)
    requires !Nullish(channel) && !prev.threw && msg.Obj? && !Prop(msg, "files").Arr?
    requires forall i :: 0 <= i < |prev.sets| ==> Admissible(version, prev.sets[i])
    ensures StepMessage(version, prev, msg, ws, channel) == MsgScan(prev.pushed + [Tag(msg, ws, channel)], prev.sets, false)
  {
    var tagged := Tag(msg, ws, channel);
    assert Prop(tagged, "files") == Prop(msg, "files");
    assert FilesOf(tagged) == [];
    assert prev.sets + [] == prev.sets;
  }

  /** What the first `n` messages pushed and recorded stays pushed and
      recorded, whatever the later messages do, a throw included. */
  lemma {:induction false} ScanMessagesKeepsEarlier(version: Version, items: seq<Value>, ws: nat, channel: Value, n: nat)
    requires !Nullish(channel) && n <= |items|
    ensures ScanMessages(version, items[..n], ws, channel).pushed <= ScanMessages(version, items, ws, channel).pushed
    ensures ScanMessages(version, items[..n], ws, channel).sets <= ScanMessages(version, items, ws, channel).sets
    decreases |items| - n
  {
    if n < |items| {
      var init := items[..|items| - 1];
      assert init[..n] == items[..n];
      ScanMessagesKeepsEarlier(version, init, ws, channel, n);
      StepMessageExtends(version, ScanMessages(version, init, ws, channel), items[|items| - 1], ws, channel);
    } else {
      assert items[..n] == items;
    }
  }

  /** Every pushed message is an object tagged with the workspace id and the
      channel's origin `id` (not its local row id), and pushed messages come
      in the order of the file. */
  lemma {:induction false} ScanMessagesTagged(version: Version, items: seq<Value>, ws: nat, channel: Value)
    requires !Nullish(channel)
    ensures var p := ScanMessages(version, items, ws, channel).pushed;
      |p| <= |items| &&
      forall i :: 0 <= i < |p| ==> TaggedWith(p[i], ws, Prop(channel, "id"))
  {
    if items != [] {
      var init := items[..|items| - 1];
      ScanMessagesTagged(version, init, ws, channel);
      StepMessageExtends(version, ScanMessages(version, init, ws, channel), items[|items| - 1], ws, channel);
    }
  }

  /** Every recordable file object of message `m` has its `set` call among `sets`. */
  predicate FilesIn(version: Version, m: Value, sets: seq<Asset>)
  {
    !Nullish(m) ==>
      forall j :: 0 <= j < |FilesOf(m)| && Recordable(version, FilesOf(m)[j]) ==> FileAsset(FilesOf(m)[j]) in sets
  }

  /** `FilesIn` for every message of `pushed`. */
  predicate AllFilesIn(version: Version, pushed: seq<Value>, sets: seq<Asset>)
  {
    forall i :: 0 <= i < |pushed| ==> FilesIn(version, pushed[i], sets)
  }

  /** More `set` calls keep every recorded file object recorded. */
  lemma AllFilesInGrows(version: Version, pushed: seq<Value>, sets: seq<Asset>, more: seq<Asset>)
    requires AllFilesIn(version, pushed, sets)
    ensures AllFilesIn(version, pushed, sets + more)
  {
    forall i | 0 <= i < |pushed| ensures FilesIn(version, pushed[i], sets + more) {
      assert FilesIn(version, pushed[i], sets);
    }
  }

  /** Two runs together record what each recorded. */
  lemma AllFilesInAppend(version: Version, p1: seq<Value>, s1: seq<Asset>, p2: seq<Value>, s2: seq<Asset>)
    requires AllFilesIn(version, p1, s1) && AllFilesIn(version, p2, s2)
    ensures AllFilesIn(version, p1 + p2, s1 + s2)
  {
    forall i | 0 <= i < |p1 + p2| ensures FilesIn(version, (p1 + p2)[i], s1 + s2) {
      if i < |p1| {
        assert FilesIn(version, p1[i], s1);
        assert (p1 + p2)[i] == p1[i];
      } else {
        assert FilesIn(version, p2[i - |p1|], s2);
        assert (p1 + p2)[i] == p2[i - |p1|];
      }
    }
  }

  /** A message is pushed only after all its file objects were inspected
      without a throw, so each recordable one has had its `set` call. */
  lemma StepMessageRecords(version: Version, prev: MsgScan, msg: Value, ws: nat, channel: Value)
    requires !Nullish(channel)
    requires forall i :: 0 <= i < |prev.sets| ==> Admissible(version, prev.sets[i])
    requires AllFilesIn(version, prev.pushed, prev.sets)
    ensures var r := StepMessage(version, prev, msg, ws, channel);
      AllFilesIn(version, r.pushed, r.sets)
  {
    if !prev.threw && msg.Obj? {
      var tagged := Tag(msg, ws, channel);
      var fs := ScanFiles(version, FilesOf(tagged));
      AllFilesInGrows(version, prev.pushed, prev.sets, fs.sets);
      if !fs.threw {
        ScanFilesRecordsEvery(version, FilesOf(tagged));
        assert FilesIn(version, tagged, prev.sets + fs.sets);
        var pushed := prev.pushed + [tagged];
        forall i | 0 <= i < |pushed| ensures FilesIn(version, pushed[i], prev.sets + fs.sets) {
          if i < |prev.pushed| {
            assert pushed[i] == prev.pushed[i];
          }
        }
      }
    }
  }

  /** Every recordable file object of every pushed message has its `set` call. */
  lemma {:induction false} ScanMessagesRecords(version: Version, items: seq<Value>, ws: nat, channel: Value)
    requires !Nullish(channel)
    ensures var r := ScanMessages(version, items, ws, channel);
      AllFilesIn(version, r.pushed, r.sets)
  {
    if items != [] {
      var init := items[..|items| - 1];
      ScanMessagesRecords(version, init, ws, channel);
      StepMessageRecords(version, ScanMessages(version, init, ws, channel), items[|items| - 1], ws, channel);
    }
  }

  /** Every message of `items` tagged, in order. */
  function TagEach(items: seq<Value>, ws: nat, channel: Value): (r: seq<Value>)
    requires !Nullish(channel) && forall i :: 0 <= i < |items| ==> items[i].Obj?
    ensures |r| == |items| && forall i :: 0 <= i < |items| ==> r[i] == Tag(items[i], ws, channel)
  {
    if items == [] then []
    else TagEach(items[..|items| - 1], ws, channel) + [Tag(items[|items| - 1], ws, channel)]
  }

  /** A message stops its file's walk: it is not an object, or walking its
      `files` throws before `currentBatch.push(msg)`. */
  predicate MessageThrows(version: Version, msg: Value, ws: nat, channel: Value)
    requires !Nullish(channel)
  {
    !msg.Obj? || ScanFiles(version, FilesOf(Tag(msg, ws, channel))).threw
  }

  /** The position of the first message that stops the walk, or `|items|`. */
  function FirstMessageThrow(version: Version, items: seq<Value>, ws: nat, channel: Value): (n: nat)
    requires !Nullish(channel)
    ensures n <= |items|
    ensures n < |items| ==> MessageThrows(version, items[n], ws, channel)
    ensures forall j :: 0 <= j < n ==> !MessageThrows(version, items[j], ws, channel)
  {
    if items == [] then 0
    else
      var init := items[..|items| - 1];
      var p := FirstMessageThrow(version, init, ws, channel);
      assert forall j :: 0 <= j < |init| ==> init[j] == items[j];
      if p < |init| then p
      else if MessageThrows(version, items[|items| - 1], ws, channel) then |init|
      else |items|
  }

  /** The messages before the first one that stops the walk, tagged. */
  function Delivered(version: Version, items: seq<Value>, ws: nat, channel: Value): (r: seq<Value>)
    requires !Nullish(channel)
    ensures |r| == FirstMessageThrow(version, items, ws, channel)
    ensures forall i :: 0 <= i < |r| ==> items[i].Obj? && r[i] == Tag(items[i], ws, channel)
  {
    TagEach(items[..FirstMessageThrow(version, items, ws, channel)], ws, channel)
  }

  /** Exactly the messages before the first stopping one are pushed, tagged
      and in order; the walk reports a throw iff such a message exists. */
  lemma {:induction false} ScanMessagesPushedExactly(version: Version, items: seq<Value>, ws: nat, channel: Value)
    requires !Nullish(channel)
    ensures var n := FirstMessageThrow(version, items, ws, channel);
      var r := ScanMessages(version, items, ws, channel);
      r.threw == (n < |items|) && r.pushed == Delivered(version, items, ws, channel)
  {
    if items != [] {
      var init := items[..|items| - 1];
      ScanMessagesPushedExactly(version, init, ws, channel);
      DeliveredSnoc(version, items, ws, channel);
      if items[|items| - 1].Obj? {
        StepMessageExtends(version, ScanMessages(version, init, ws, channel), items[|items| - 1], ws, channel);
      }
    }
  }

  /** `Delivered` grows by the last message's tag exactly when no message stops the walk. */
  lemma DeliveredSnoc(version: Version, items: seq<Value>, ws: nat, channel: Value)
    requires !Nullish(channel) && items != []
    ensures var init := items[..|items| - 1];
      var last := items[|items| - 1];
      Delivered(version, items, ws, channel) ==
        if FirstMessageThrow(version, init, ws, channel) < |init| || MessageThrows(version, last, ws, channel)
        then Delivered(version, init, ws, channel)
        else Delivered(version, init, ws, channel) + [Tag(last, ws, channel)]
  {
    var init := items[..|items| - 1];
    var p := FirstMessageThrow(version, init, ws, channel);
    assert init[..p] == items[..p];
    if p == |init| && !MessageThrows(version, items[|items| - 1], ws, channel) {
      assert items[..|items|] == items;
    }
  }

  /** When no message stops the walk, the whole file is pushed: every
      message, tagged, in order. */
  lemma NoThrowAllPushed(version: Version, items: seq<Value>, ws: nat, channel: Value)
    requires !Nullish(channel)
    requires forall i :: 0 <= i < |items| ==> items[i].Obj? && !ScanFiles(version, FilesOf(Tag(items[i], ws, channel))).threw
    ensures var r := ScanMessages(version, items, ws, channel);
      !r.threw && r.pushed == TagEach(items, ws, channel)
  {
    ScanMessagesPushedExactly(version, items, ws, channel);
    assert items[..|items|] == items;
  }

  /** A file whose messages are all objects without a `files` array is
      pushed whole: every message, tagged, in order. */
  lemma {:induction false} PlainMessagesAllPushed(version: Version, items: seq<Value>, ws: nat, channel: Value)
    requires !Nullish(channel)
    requires forall i :: 0 <= i < |items| ==> items[i].Obj? && !Prop(items[i], "files").Arr?
    ensures var r := ScanMessages(version, items, ws, channel);
      !r.threw && r.sets == [] && r.pushed == TagEach(items, ws, channel)
  {
    if items != [] {
      var init := items[..|items| - 1];
      PlainMessagesAllPushed(version, init, ws, channel);
      StepMessagePlain(version, ScanMessages(version, init, ws, channel), items[|items| - 1], ws, channel);
    }
  }

  /** Everything one call of `processFile` contributes. A JSON parse failure
      (or unreadable entry) contributes nothing; so does content that is not
      an array (`for...of` throws at once, or walks characters that throw on
      their first property write). */
  function FileContribution(version: Version, e: Entry, rootDir: string, channels: seq<Value>, ws: nat): (r: MsgScan)
    requires NoNullish(channels)
    ensures r.pushed != [] ==> MatchChannel(e, rootDir, channels).Some? && e.content.Some?
    ensures forall i :: 0 <= i < |r.sets| ==> Admissible(version, r.sets[i])
  {
    match MatchChannel(e, rootDir, channels)
    case None => MsgScan([], [], false)
    case Some(c) =>
      if e.content.None? || !e.content.value.Arr? then MsgScan([], [], false)
      else ScanMessages(version, e.content.value.items, ws, channels[c])
  }

  /** A message-day file whose content is an array contributes exactly its
      messages before the first one that stops the walk, tagged with the
      matched channel; the walk reports a throw iff such a message exists. */
  lemma ContributionPushedExactly(version: Version, e: Entry, rootDir: string, channels: seq<Value>, ws: nat)
    requires NoNullish(channels)
    requires MatchChannel(e, rootDir, channels).Some? && e.content.Some? && e.content.value.Arr?
    ensures var items := e.content.value.items;
      var ch := channels[MatchChannel(e, rootDir, channels).value];
      var n := FirstMessageThrow(version, items, ws, ch);
      var r := FileContribution(version, e, rootDir, channels, ws);
      r.threw == (n < |items|) && r.pushed == Delivered(version, items, ws, ch)
  {
    ScanMessagesPushedExactly(version, e.content.value.items, ws, channels[MatchChannel(e, rootDir, channels).value]);
  }

  /** Every recordable file object of a contributed message has its `set` call. */
  lemma ContributionRecords(version: Version, e: Entry, rootDir: string, channels: seq<Value>, ws: nat)
    requires NoNullish(channels)
    ensures var c := FileContribution(version, e, rootDir, channels, ws);
      AllFilesIn(version, c.pushed, c.sets)
  {
    match MatchChannel(e, rootDir, channels)
    case None =>
    case Some(c) =>
      if e.content.Some? && e.content.value.Arr? {
        ScanMessagesRecords(version, e.content.value.items, ws, channels[c]);
      }
  }

  /** Messages contributed by an entry carry the workspace id and the origin
      `id` of the FIRST channel whose name is the entry's directory. */
  lemma ContributionTagged(version: Version, e: Entry, rootDir: string, channels: seq<Value>, ws: nat)
    requires NoNullish(channels)
    ensures var p := FileContribution(version, e, rootDir, channels, ws).pushed;
      p != [] ==>
        var c := MatchChannel(e, rootDir, channels).value;
        forall i :: 0 <= i < |p| ==> TaggedWith(p[i], ws, Prop(channels[c], "id"))
  {
    match MatchChannel(e, rootDir, channels)
    case None =>
    case Some(c) =>
      if e.content.Some? && e.content.value.Arr? {
        ScanMessagesTagged(version, e.content.value.items, ws, channels[c]);
      }
  }

  /** After the first `j` file objects: `threw` and the map are what the
      walk over them gives. */
  ghost predicate Recorded(version: Version, files: seq<Value>, j: nat, threw: bool,
                           before: seq<Asset>, entries: seq<Asset>)
  {
    j <= |files| && DistinctKeys(before) &&
    threw == ScanFiles(version, files[..j]).threw &&
    entries == SetAll(before, ScanFiles(version, files[..j]).sets)
  }

  /** One turn of the inner `for (const f of msg.files)` loop. */
  method RecordFile(version: Version, files: seq<Value>, j: nat, assets: AssetMap, ghost before: seq<Asset>)
      returns (threw: bool)
    requires j < |files| && assets.Valid()
    requires Recorded(version, files, j, false, before, assets.entries)
    modifies assets
    ensures assets.Valid()
    ensures Recorded(version, files, j + 1, threw, before, assets.entries)
  {
    ghost var prev := ScanFiles(version, files[..j]);
    ScanFilesSnoc(version, files, j);
    var step := StepFile(version, files[j]);
    threw := step.Throws?;
    if step.Record? {
      assets.Set(step.asset.0, step.asset.1);
      SetAllSnoc(before, prev.sets, step.asset);
    }
  }

  /** The inner `for (const f of msg.files)` loop: the `set` calls it makes
      and whether it threw. */
  method RecordFiles(version: Version, files: seq<Value>, assets: AssetMap) returns (threw: bool)
    requires assets.Valid()
    modifies assets
    ensures assets.Valid()
    ensures threw == ScanFiles(version, files).threw
    ensures assets.entries == SetAll(old(assets.entries), ScanFiles(version, files).sets)
  {
    ghost var before := assets.entries;
    var j := 0;
    threw := false;
    while j < |files| && !threw
      invariant assets.Valid()
      invariant Recorded(version, files, j, threw, before, assets.entries)
    {
      threw := RecordFile(version, files, j, assets, before);
      j := j + 1;
    }
    if j < |files| {
      ScanFilesStops(version, files, j);
    } else {
      assert files[..j] == files;
    }
  }

  /** After the first `i` messages of a file: `stopped`, the pushed messages
      and the map are what the walk over them gives, on top of `pushed0` and
      `entries0`. */
  ghost predicate Walked(version: Version, items: seq<Value>, i: nat, ws: nat, channel: Value, stopped: bool,
                         pushed0: seq<Value>, pushed: seq<Value>, entries0: seq<Asset>, entries: seq<Asset>)
  {
    i <= |items| && !Nullish(channel) && DistinctKeys(entries0) &&
    var scan := ScanMessages(version, items[..i], ws, channel);
    stopped == scan.threw && pushed == pushed0 + scan.pushed && entries == SetAll(entries0, scan.sets)
  }

  /** The walk over the first `i + 1` messages is one more turn after the first `i`. */
  lemma ScanMessagesSnoc(version: Version, items: seq<Value>, i: nat, ws: nat, channel: Value)
    requires i < |items| && !Nullish(channel)
    ensures ScanMessages(version, items[..i + 1], ws, channel) ==
      StepMessage(version, ScanMessages(version, items[..i], ws, channel), items[i], ws, channel)
  {
    assert items[..i + 1][..i] == items[..i];
  }

  /** One iteration of the message loop: tag, record files, push. */
  method ProcessMessage(version: Version, items: seq<Value>, i: nat, ws: nat, channel: Value,
                        batcher: Batcher, assets: AssetMap, ghost pushed0: seq<Value>, ghost entries0: seq<Asset>)
      returns (stopped: bool)
    requires i < |items| && batcher.Valid() && assets.Valid()
    requires Walked(version, items, i, ws, channel, false, pushed0, batcher.Pushed(), entries0, assets.entries)
    modifies batcher, assets
    ensures batcher.Valid() && assets.Valid()
    ensures Walked(version, items, i + 1, ws, channel, stopped, pushed0, batcher.Pushed(), entries0, assets.entries)
  {
    ghost var prev := ScanMessages(version, items[..i], ws, channel);
    ScanMessagesSnoc(version, items, i, ws, channel);
    var msg := items[i];
    if !msg.Obj? {
      stopped := true;
    } else {
      var tagged := Tag(msg, ws, channel);
      ghost var fs := ScanFiles(version, FilesOf(tagged));
      var threw := RecordFiles(version, FilesOf(tagged), assets);
      if !threw {
        batcher.Push(tagged);
        assert pushed0 + (prev.pushed + [tagged]) == (pushed0 + prev.pushed) + [tagged];
      } else {
        assert prev.pushed + [] == prev.pushed;
      }
      stopped := threw;
      SetAllAppend(entries0, prev.sets, fs.sets);
    }
  }

  /** The `for (const msg of messagesData)` loop, left at the first throw. */
  method WalkMessages(version: Version, items: seq<Value>, ws: nat, channel: Value, batcher: Batcher, assets: AssetMap)
    requires !Nullish(channel) && batcher.Valid() && assets.Valid()
    modifies batcher, assets
    ensures batcher.Valid() && assets.Valid()
    ensures batcher.Pushed() == old(batcher.Pushed()) + ScanMessages(version, items, ws, channel).pushed
    ensures assets.entries == SetAll(old(assets.entries), ScanMessages(version, items, ws, channel).sets)
  {
    ghost var pushed0 := batcher.Pushed();
    ghost var entries0 := assets.entries;
    assert items[..0] == [];
    assert pushed0 + [] == pushed0;
    var i := 0;
    var stopped := false;
    while i < |items| && !stopped
      invariant batcher.Valid() && assets.Valid()
      invariant Walked(version, items, i, ws, channel, stopped, pushed0, batcher.Pushed(), entries0, assets.entries)
    {
      stopped := ProcessMessage(version, items, i, ws, channel, batcher, assets, pushed0, entries0);
      i := i + 1;
    }
    if i < |items| {
      ScanMessagesStops(version, items, ws, channel, i);
    } else {
      assert items[..i] == items;
    }
  }

  /** `m` is tagged with workspace `ws` and the origin `id` of one of `channels`. */
  predicate FromSomeChannel(m: Value, ws: nat, channels: seq<Value>)
    requires NoNullish(channels)
  {
    exists j :: 0 <= j < |channels| && TaggedWith(m, ws, Prop(channels[j], "id"))
  }

  predicate AllFromSomeChannel(ms: seq<Value>, ws: nat, channels: seq<Value>)
    requires NoNullish(channels)
  {
    forall i :: 0 <= i < |ms| ==> FromSomeChannel(ms[i], ws, channels)
  }

  lemma ContributionFromSomeChannel(version: Version, e: Entry, rootDir: string, channels: seq<Value>, ws: nat)
    requires NoNullish(channels)
    ensures AllFromSomeChannel(FileContribution(version, e, rootDir, channels, ws).pushed, ws, channels)
  {
    var p := FileContribution(version, e, rootDir, channels, ws).pushed;
    ContributionTagged(version, e, rootDir, channels, ws);
    if p != [] {
      var j := MatchChannel(e, rootDir, channels).value;
      assert forall i :: 0 <= i < |p| ==> TaggedWith(p[i], ws, Prop(channels[j], "id"));
    }
  }

  /** `processFile(relativePath, fileObj)`, run to completion. */
  method ProcessFile(version: Version, e: Entry, rootDir: string, channels: seq<Value>, ws: nat,
                     batcher: Batcher, assets: AssetMap)
    requires NoNullish(channels)
    requires batcher.Valid() && assets.Valid()
    modifies batcher, assets
    ensures batcher.Valid() && assets.Valid()
    ensures batcher.Pushed() == old(batcher.Pushed()) + FileContribution(version, e, rootDir, channels, ws).pushed
    ensures assets.entries == SetAll(old(assets.entries), FileContribution(version, e, rootDir, channels, ws).sets)
  {
    ghost var pushed0 := batcher.Pushed();
    ghost var entries0 := assets.entries;
    ghost var contribution := FileContribution(version, e, rootDir, channels, ws);
    assert pushed0 + [] == pushed0;
    if e.isDir || !EndsWith(e.name, ".json") {
      assert contribution == MsgScan([], [], false);
      return;
    }
    var withoutRoot := StripRoot(e.name, rootDir);
    var parts := Split(withoutRoot);
    if |parts| != 2 {
      assert contribution == MsgScan([], [], false);
      return;
    }
    var found := FindChannel(channels, parts[0]);
    if found.None? {
      assert contribution == MsgScan([], [], false);
      return;
    }
    var channel := channels[found.value];
    if e.content.None? || !e.content.value.Arr? {
      assert contribution == MsgScan([], [], false);
      return;
    }
    var items := e.content.value.items;
    assert contribution == ScanMessages(version, items, ws, channel);
    WalkMessages(version, items, ws, channel, batcher, assets);
  }
}
