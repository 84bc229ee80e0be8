/** The `filesToCache` map: which file objects of a message are recorded
    for caching, and the insertion-ordered, last-write-wins `Map.set`. */
module Assets {
  import opened Wrappers
  import opened Json
  import opened Text

  /** The two versions of `importSlackZip`: the earlier one records every
      file object; the current one only images, videos and PDFs. */
  datatype Version = Earlier | Current

  /** `{ url: f.url_private, mimetype: f.mimetype }`. */
  datatype Meta = Meta(url: Value, mimetype: Value)

  /** One recorded asset: the file id and its metadata. */
  type Asset = (Value, Meta)

  /** `mimetype.startsWith('image/') || mimetype.startsWith('video/') || mimetype === 'application/pdf'`. */
  predicate CacheableMime(mime: string)
  {
    StartsWith(mime, "image/") || StartsWith(mime, "video/") || mime == "application/pdf"
  }

  /** What a version accepts into `filesToCache`: truthy id, url and MIME type,
      and in the current version a cacheable MIME string. */
  predicate Admissible(version: Version, a: Asset)
  {
    Truthy(a.0) && Truthy(a.1.url) && Truthy(a.1.mimetype) &&
    (version == Current ==> a.1.mimetype.Str? && CacheableMime(a.1.mimetype.s))
  }

  /** `[f.id, { url: f.url_private, mimetype: f.mimetype }]`, the `set` call for `f`. */
  function FileAsset(f: Value): Asset
    requires !Nullish(f)
  {
    (Prop(f, "id"), Meta(Prop(f, "url_private"), Prop(f, "mimetype")))
  }

  /** A file object the version puts into `filesToCache`. */
  predicate Recordable(version: Version, f: Value)
  {
    !Nullish(f) && Admissible(version, FileAsset(f))
  }

  /** The effect of one element `f` of `msg.files`. */
  datatype FileStep = Skip | Record(asset: Asset) | Throws

  /** `f.id && f.url_private && f.mimetype` reads properties of `f` (throwing
      on `null`); the current version then calls `f.mimetype.startsWith`,
      which throws when the truthy MIME type is not a string. */
  function StepFile(version: Version, f: Value): (r: FileStep)
    ensures r.Record? <==> Recordable(version, f)
    ensures r.Record? ==> Admissible(version, r.asset) && r.asset == FileAsset(f)
    ensures r == Throws <==>
      Nullish(f) ||
      (version == Current && Truthy(Prop(f, "id")) && Truthy(Prop(f, "url_private")) &&
       Truthy(Prop(f, "mimetype")) && !Prop(f, "mimetype").Str?)
    ensures (version == Earlier && !Nullish(f) &&
      Truthy(Prop(f, "id")) && Truthy(Prop(f, "url_private")) && Truthy(Prop(f, "mimetype"))) ==> r.Record?
  {
    if Nullish(f) then Throws
    else
      var id, url, mime := Prop(f, "id"), Prop(f, "url_private"), Prop(f, "mimetype");
      if !(Truthy(id) && Truthy(url) && Truthy(mime)) then Skip
      else match version
        case Earlier => Record((id, Meta(url, mime)))
        case Current =>
          if !mime.Str? then Throws
          else if CacheableMime(mime.s) then Record((id, Meta(url, mime)))
          else Skip
  }

  /** The `set` calls issued while walking `files` in order, and whether the walk threw. */
  datatype FilesScan = FilesScan(sets: seq<Asset>, threw: bool)

  function ScanFiles(version: Version, files: seq<Value>): (r: FilesScan)
    ensures forall i :: 0 <= i < |r.sets| ==> Admissible(version, r.sets[i])
  {
    if files == [] then FilesScan([], false)
    else StepScan(version, ScanFiles(version, files[..|files| - 1]), files[|files| - 1])
  }

  /** One turn of the walk over a message's files, after the earlier ones gave `prev`. */
  function StepScan(version: Version, prev: FilesScan, f: Value): (r: FilesScan)
    requires forall i :: 0 <= i < |prev.sets| ==> Admissible(version, prev.sets[i])
    ensures forall i :: 0 <= i < |r.sets| ==> Admissible(version, r.sets[i])
  {
    if prev.threw then prev
    else match StepFile(version, f)
      case Skip => prev
      case Record(a) => FilesScan(prev.sets + [a], false)
      case Throws => FilesScan(prev.sets, true)
  }

  /** The walk over the first `j + 1` files is one more turn after the first `j`. */
  lemma ScanFilesSnoc(version: Version, files: seq<Value>, j: nat)
    requires j < |files|
    ensures ScanFiles(version, files[..j + 1]) == StepScan(version, ScanFiles(version, files[..j]), files[j])
  {
    assert files[..j + 1][..j] == files[..j];
  }

  /** Once the walk has thrown, the later elements are never looked at. */
  lemma {:induction false} ScanFilesStops(version: Version, files: seq<Value>, n: nat)
    requires n <= |files| && ScanFiles(version, files[..n]).threw
    ensures ScanFiles(version, files) == ScanFiles(version, files[..n])
    decreases |files| - n
  {
    if n < |files| {
      assert files[..|files| - 1][..n] == files[..n];
      ScanFilesStops(version, files[..|files| - 1], n);
    } else {
      assert files[..n] == files;
    }
  }

  /** The `set` calls for the recordable file objects of `files`, in order:
      what a walk over `files` issues when nothing in it throws. */
  function RecordedAssets(version: Version, files: seq<Value>): (r: seq<Asset>)
    ensures forall j :: 0 <= j < |files| && Recordable(version, files[j]) ==> FileAsset(files[j]) in r
    ensures forall a :: a in r ==>
      exists j :: 0 <= j < |files| && Recordable(version, files[j]) && a == FileAsset(files[j])
  {
    if files == [] then []
    else
      var init, f := files[..|files| - 1], files[|files| - 1];
      assert forall j :: 0 <= j < |init| ==> init[j] == files[j];
      RecordedAssets(version, init) + (if Recordable(version, f) then [FileAsset(f)] else [])
  }

  /** The position of the first file object whose inspection throws, or `|files|`. */
  function FirstThrow(version: Version, files: seq<Value>): (n: nat)
    ensures n <= |files|
    ensures n < |files| ==> StepFile(version, files[n]).Throws?
    ensures forall j :: 0 <= j < n ==> !StepFile(version, files[j]).Throws?
  {
    if files == [] then 0
    else
      var init := files[..|files| - 1];
      var p := FirstThrow(version, init);
      assert forall j :: 0 <= j < |init| ==> init[j] == files[j];
      if p < |init| then p
      else if StepFile(version, files[|files| - 1]).Throws? then |init|
      else |files|
  }

  /** The walk over `files` issues one `set` call per recordable file object
      before the first throw, in order, and throws iff some file object throws. */
  lemma {:induction false} ScanFilesExactly(version: Version, files: seq<Value>)
    ensures var n := FirstThrow(version, files);
      ScanFiles(version, files) == FilesScan(RecordedAssets(version, files[..n]), n < |files|)
  {
    if files == [] {
      assert files[..0] == [];
    } else {
      var init, f := files[..|files| - 1], files[|files| - 1];
      ScanFilesExactly(version, init);
      var p := FirstThrow(version, init);
      if p < |init| {
        ScanFilesThrown(version, files);
      } else {
        ScanFilesClean(version, files);
      }
    }
  }

  /** The step of `ScanFilesExactly` when an earlier file object threw. */
  lemma ScanFilesThrown(version: Version, files: seq<Value>)
    requires files != []
    requires var init := files[..|files| - 1];
      FirstThrow(version, init) < |init| &&
      ScanFiles(version, init) == FilesScan(RecordedAssets(version, init[..FirstThrow(version, init)]), true)
    ensures var n := FirstThrow(version, files);
      ScanFiles(version, files) == FilesScan(RecordedAssets(version, files[..n]), n < |files|)
  {
    var init := files[..|files| - 1];
    var p := FirstThrow(version, init);
    assert FirstThrow(version, files) == p;
    assert files[..p] == init[..p];
  }

  /** The step of `ScanFilesExactly` when no earlier file object threw. */
  lemma ScanFilesClean(version: Version, files: seq<Value>)
    requires files != []
    requires var init := files[..|files| - 1];
      FirstThrow(version, init) == |init| &&
      ScanFiles(version, init) == FilesScan(RecordedAssets(version, init[..|init|]), false)
    ensures var n := FirstThrow(version, files);
      ScanFiles(version, files) == FilesScan(RecordedAssets(version, files[..n]), n < |files|)
  {
    var init, f := files[..|files| - 1], files[|files| - 1];
    assert init[..|init|] == init;
    var prev := ScanFiles(version, init);
    assert ScanFiles(version, files) == StepScan(version, prev, f);
    if StepFile(version, f).Throws? {
      assert FirstThrow(version, files) == |init|;
      assert files[..|init|] == init;
    } else {
      assert FirstThrow(version, files) == |files|;
      assert files[..|files|] == files;
      assert RecordedAssets(version, files) ==
        RecordedAssets(version, init) + (if Recordable(version, f) then [FileAsset(f)] else []);
    }
  }

  /** When the walk does not throw, every recordable file object has its `set` call. */
  lemma ScanFilesRecordsEvery(version: Version, files: seq<Value>)
    requires !ScanFiles(version, files).threw
    ensures forall j :: 0 <= j < |files| && Recordable(version, files[j]) ==>
      FileAsset(files[j]) in ScanFiles(version, files).sets
  {
    ScanFilesExactly(version, files);
    assert files[..FirstThrow(version, files)] == files;
  }

  // ---- The insertion-ordered map `filesToCache` ----

  function Keys(m: seq<Asset>): (ks: seq<Value>)
    ensures |ks| == |m| && forall i :: 0 <= i < |m| ==> ks[i] == m[i].0
  {
    if m == [] then [] else [m[0].0] + Keys(m[1..])
  }

  predicate DistinctKeys(m: seq<Asset>)
  {
    forall i, j :: 0 <= i < j < |m| ==> m[i].0 != m[j].0
  }

  /** The position of key `k`, if present. */
  function KeyIndex(m: seq<Asset>, k: Value): (r: Option<nat>)
    ensures r.Some? ==> r.value < |m| && m[r.value].0 == k
    ensures r.None? <==> forall i :: 0 <= i < |m| ==> m[i].0 != k
  {
    if m == [] then None
    else if m[0].0 == k then Some(0)
    else match KeyIndex(m[1..], k)
      case None => None
      case Some(i) => Some(i + 1)
  }

  /** `map.set(k, v)`: an existing key keeps its position and takes the new
      value; a new key is appended; every other entry is unchanged. */
  function MapSet(m: seq<Asset>, k: Value, v: Meta): (r: seq<Asset>)
    requires DistinctKeys(m)
    ensures DistinctKeys(r)
    ensures KeyIndex(m, k).Some? ==> Keys(r) == Keys(m)
    ensures KeyIndex(m, k).None? ==> Keys(r) == Keys(m) + [k]
    ensures forall i :: 0 <= i < |r| ==>
      if r[i].0 == k then r[i].1 == v else i < |m| && r[i] == m[i]
  {
    match KeyIndex(m, k)
    case None => AppendNewKey(m, k, v); m + [(k, v)]
    case Some(i) => ReplaceAtKey(m, i, k, v); m[i := (k, v)]
  }

  lemma AppendNewKey(m: seq<Asset>, k: Value, v: Meta)
    requires DistinctKeys(m) && forall i :: 0 <= i < |m| ==> m[i].0 != k
    ensures DistinctKeys(m + [(k, v)]) && Keys(m + [(k, v)]) == Keys(m) + [k]
  {
    AppendDistinct(m, k, v);
    AppendKeys(m, k, v);
  }

  lemma AppendDistinct(m: seq<Asset>, k: Value, v: Meta)
    requires DistinctKeys(m) && forall i :: 0 <= i < |m| ==> m[i].0 != k
    ensures DistinctKeys(m + [(k, v)])
  {
  }

  lemma AppendKeys(m: seq<Asset>, k: Value, v: Meta)
    ensures Keys(m + [(k, v)]) == Keys(m) + [k]
  {
  }

  lemma ReplaceAtKey(m: seq<Asset>, i: nat, k: Value, v: Meta)
    requires DistinctKeys(m) && i < |m| && m[i].0 == k
    ensures DistinctKeys(m[i := (k, v)]) && Keys(m[i := (k, v)]) == Keys(m)
  {
  }

  /** `map.get(k)`. */
  function Lookup(m: seq<Asset>, k: Value): Option<Meta>
  {
    match KeyIndex(m, k)
    case None => None
    case Some(i) => Some(m[i].1)
  }

  /** A run of `set` calls, in order. */
  function SetAll(m: seq<Asset>, sets: seq<Asset>): (r: seq<Asset>)
    requires DistinctKeys(m)
    ensures DistinctKeys(r)
  {
    if sets == [] then m
    else MapSet(SetAll(m, sets[..|sets| - 1]), sets[|sets| - 1].0, sets[|sets| - 1].1)
  }

  /** One more `set` call on top of a run of them. */
  lemma SetAllSnoc(m: seq<Asset>, sets: seq<Asset>, a: Asset)
    requires DistinctKeys(m)
    ensures SetAll(m, sets + [a]) == MapSet(SetAll(m, sets), a.0, a.1)
  {
    assert (sets + [a])[..|sets|] == sets;
  }

  lemma {:induction false} SetAllAppend(m: seq<Asset>, a: seq<Asset>, b: seq<Asset>)
    requires DistinctKeys(m)
    ensures SetAll(m, a + b) == SetAll(SetAll(m, a), b)
  {
    if b == [] {
      assert a + b == a;
    } else {
      assert (a + b)[..|a + b| - 1] == a + b[..|b| - 1];
      SetAllAppend(m, a, b[..|b| - 1]);
    }
  }

  /** The value of the last `set` call for key `k`, if any. */
  function LastWrite(sets: seq<Asset>, k: Value): Option<Meta>
  {
    if sets == [] then None
    else if sets[|sets| - 1].0 == k then Some(sets[|sets| - 1].1)
    else LastWrite(sets[..|sets| - 1], k)
  }

  /** In a map with distinct keys, the key at position `p` is found at `p`. */
  lemma KeyIndexAt(m: seq<Asset>, p: nat)
    requires DistinctKeys(m) && p < |m|
    ensures KeyIndex(m, m[p].0) == Some(p)
  {
    var q := KeyIndex(m, m[p].0);
    assert q.Some?;
    assert m[q.value].0 == m[p].0;
  }

  /** After `set(k, v)`, `get(k)` gives `v`. */
  lemma MapSetLookupSame(m: seq<Asset>, k: Value, v: Meta)
    requires DistinctKeys(m)
    ensures Lookup(MapSet(m, k, v), k) == Some(v)
  {
    var r := MapSet(m, k, v);
    assert |Keys(r)| == |r| && |Keys(m)| == |m|;
    var p: nat := if KeyIndex(m, k).Some? then KeyIndex(m, k).value else |m|;
    assert Keys(r)[p] == k;
    KeyIndexAt(r, p);
  }

  /** `set(k, v)` does not change `get` of any other key. */
  lemma MapSetLookupOther(m: seq<Asset>, k: Value, v: Meta, k': Value)
    requires DistinctKeys(m) && k' != k
    ensures Lookup(MapSet(m, k, v), k') == Lookup(m, k')
  {
    var r := MapSet(m, k, v);
    if KeyIndex(m, k').None? {
      MapSetKeepsAbsent(m, k, v, k');
    } else {
      var i := KeyIndex(m, k').value;
      MapSetKeepsPosition(m, k, v, i);
      KeyIndexAt(r, i);
    }
  }

  lemma MapSetKeepsAbsent(m: seq<Asset>, k: Value, v: Meta, k': Value)
    requires DistinctKeys(m) && k' != k && KeyIndex(m, k').None?
    ensures KeyIndex(MapSet(m, k, v), k').None?
  {
    var r := MapSet(m, k, v);
    assert forall i :: 0 <= i < |r| ==> r[i].0 != k';
  }

  lemma MapSetKeepsPosition(m: seq<Asset>, k: Value, v: Meta, i: nat)
    requires DistinctKeys(m) && i < |m| && m[i].0 != k
    ensures i < |MapSet(m, k, v)| && MapSet(m, k, v)[i] == m[i]
  {
    var r := MapSet(m, k, v);
    assert |Keys(r)| == |r| && |Keys(m)| == |m|;
  }

  lemma MapSetLookup(m: seq<Asset>, k: Value, v: Meta, k': Value)
    requires DistinctKeys(m)
    ensures Lookup(MapSet(m, k, v), k') == if k' == k then Some(v) else Lookup(m, k')
  {
    if k' == k {
      MapSetLookupSame(m, k, v);
    } else {
      MapSetLookupOther(m, k, v, k');
    }
  }

  /** After a run of `set` calls, a key maps to the value of the LAST call
      for it; a key never set keeps its earlier value. */
  lemma {:induction false} SetAllLastWriteWins(m: seq<Asset>, sets: seq<Asset>, k: Value)
    requires DistinctKeys(m)
    ensures Lookup(SetAll(m, sets), k) ==
      if LastWrite(sets, k).Some? then LastWrite(sets, k) else Lookup(m, k)
  {
    if sets != [] {
      var init := sets[..|sets| - 1];
      var last := sets[|sets| - 1];
      SetAllLastWriteWins(m, init, k);
      MapSetLookup(SetAll(m, init), last.0, last.1, k);
    }
  }

  /** A key some `set` call wrote has a last write. */
  lemma {:induction false} LastWriteOfWritten(sets: seq<Asset>, a: Asset)
    requires a in sets
    ensures LastWrite(sets, a.0).Some?
  {
    var init := sets[..|sets| - 1];
    if sets[|sets| - 1].0 != a.0 {
      assert a in init by {
        var i :| 0 <= i < |sets| && sets[i] == a;
        assert i < |init| && init[i] == a;
      }
      LastWriteOfWritten(init, a);
    }
  }

  /** After a run of `set` calls, every key one of them wrote is in the map. */
  lemma SetAllHasKey(m: seq<Asset>, sets: seq<Asset>, a: Asset)
    requires DistinctKeys(m) && a in sets
    ensures Lookup(SetAll(m, sets), a.0).Some?
  {
    LastWriteOfWritten(sets, a);
    SetAllLastWriteWins(m, sets, a.0);
  }

  /** Every entry of the map comes from `m` or from some `set` call. */
  lemma {:induction false} SetAllAdmissible(version: Version, m: seq<Asset>, sets: seq<Asset>)
    requires DistinctKeys(m)
    requires forall i :: 0 <= i < |m| ==> Admissible(version, m[i])
    requires forall i :: 0 <= i < |sets| ==> Admissible(version, sets[i])
    ensures forall i :: 0 <= i < |SetAll(m, sets)| ==> Admissible(version, SetAll(m, sets)[i])
  {
    if sets != [] {
      var init := sets[..|sets| - 1];
      SetAllAdmissible(version, m, init);
      var prev := SetAll(m, init);
      var last := sets[|sets| - 1];
      var r := SetAll(m, sets);
      assert r == MapSet(prev, last.0, last.1);
      forall i | 0 <= i < |r| ensures Admissible(version, r[i]) {
        if r[i].0 == last.0 {
          assert r[i] == last;
        } else {
          assert r[i] == prev[i];
        }
      }
    }
  }

  /** The `filesToCache` object of `importSlackZip`. */
  class AssetMap {
    var entries: seq<Asset>

    ghost predicate Valid()
      reads this
    {
      DistinctKeys(entries)
    }

    constructor ()
      ensures Valid() && entries == []
    {
      entries := [];
    }

    /** `filesToCache.set(id, meta)`. */
    method Set(k: Value, v: Meta)
      requires Valid()
      modifies this
      ensures Valid()
      ensures entries == MapSet(old(entries), k, v)
    {
      entries := MapSet(entries, k, v);
    }
  }
}
