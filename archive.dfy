/** The loaded zip archive and the discovery of the export's root
    directory and its two required files. */
module Archive {
  import opened Wrappers
  import opened Json
  import opened Text

  /** One zip entry: its full path, whether it is a directory, and its text
      parsed as JSON (`None` when decompression or `JSON.parse` fails). */
  datatype Entry = Entry(name: string, isDir: bool, content: Option<Value>)

  /** The errors `importSlackZip` throws. `MissingUsers` and `MissingChannels`
      are its own `Error`s; `SyntaxError` is `JSON.parse` failing on a required
      file; `TypeError` is the normalisation `map` meeting a non-array or a
      `null` element. */
  datatype ImportError = MissingUsers | MissingChannels | SyntaxError | TypeError

  const UsersFile := "users.json"
  const ChannelsFile := "channels.json"

  predicate IsUsersFile(e: Entry)
  {
    !e.isDir && EndsWith(e.name, UsersFile)
  }

  /** `Object.values(zip.files).find(f => !f.dir && f.name.endsWith('users.json'))`:
      the index of the first such entry. */
  function FindUsersEntry(entries: seq<Entry>): (r: Option<nat>)
    ensures r.Some? ==> r.value < |entries| && IsUsersFile(entries[r.value])
    ensures r.Some? ==> forall j :: 0 <= j < r.value ==> !IsUsersFile(entries[j])
    ensures r.None? <==> forall j :: 0 <= j < |entries| ==> !IsUsersFile(entries[j])
  {
    if entries == [] then None
    else if IsUsersFile(entries[0]) then Some(0)
    else match FindUsersEntry(entries[1..])
      case None => None
      case Some(k) => Some(k + 1)
  }

  /** `zip.file(path)`: the entry stored under exactly `path`, unless it is a directory. */
  function LookupFile(entries: seq<Entry>, path: string): (r: Option<nat>)
    ensures r.Some? ==> r.value < |entries| && entries[r.value].name == path && !entries[r.value].isDir
    ensures r.None? <==> forall j :: 0 <= j < |entries| ==> entries[j].name != path || entries[j].isDir
  {
    if entries == [] then None
    else if entries[0].name == path && !entries[0].isDir then Some(0)
    else match LookupFile(entries[1..], path)
      case None => None
      case Some(k) => Some(k + 1)
  }

  /** `usersFileObj.name.replace('users.json', '')`. */
  function RootDir(usersPath: string): string
  {
    ReplaceFirst(usersPath, UsersFile, "")
  }

  /** When `users.json` occurs in the path only as its suffix, the root
      directory is exactly the path's prefix before it. */
  lemma RootDirIsPrefix(usersPath: string)
    requires EndsWith(usersPath, UsersFile)
    requires forall j :: 0 <= j < |usersPath| - |UsersFile| ==> !OccursAt(usersPath, UsersFile, j)
    ensures RootDir(usersPath) + UsersFile == usersPath
  {
    var k := |usersPath| - |UsersFile|;
    assert OccursAt(usersPath, UsersFile, k);
    assert IndexOf(usersPath, UsersFile) == Some(k);
    assert usersPath[..k] + usersPath[k..] == usersPath;
  }

  /** Because `replace` removes the first occurrence, a directory named
      `users.json` is removed instead of the file name: the root of
      `users.json/users.json` comes out as `/users.json`, not `users.json/`. */
  lemma RootDirRemovesFirstOccurrence()
    ensures RootDir("users.json/users.json") == "/users.json"
    ensures RootDir("users.json/users.json") + UsersFile != "users.json/users.json"
  {
    var p := "users.json/users.json";
    assert OccursAt(p, UsersFile, 0);
    assert IndexOf(p, UsersFile) == Some(0);
    assert p[10..] == "/users.json";
    assert ("/users.json" + UsersFile)[0] != p[0];
  }

  /** What the import has read before it writes anything: the root
      directory and the parsed users and channels data. */
  datatype Prepared = Prepared(rootDir: string, usersData: Value, channelsData: Value)

  /** Lines 9-25 of `importSlackZip`: find `users.json`, derive the root,
      require `<root>channels.json`, and parse both. Every failure here
      happens before the workspace row is added. */
  function Prepare(entries: seq<Entry>): (r: Result<Prepared, ImportError>)
    ensures FindUsersEntry(entries).None? <==> r == Failure(MissingUsers)
    ensures r.Success? ==> (FindUsersEntry(entries).Some? &&
      r.value.rootDir == RootDir(entries[FindUsersEntry(entries).value].name) &&
      entries[FindUsersEntry(entries).value].content == Some(r.value.usersData))
    ensures r == Failure(MissingChannels) <==>
      FindUsersEntry(entries).Some? &&
      LookupFile(entries, RootDir(entries[FindUsersEntry(entries).value].name) + ChannelsFile).None?
    ensures r == Failure(SyntaxError) <==>
      FindUsersEntry(entries).Some? &&
      var u := FindUsersEntry(entries).value;
      var c := LookupFile(entries, RootDir(entries[u].name) + ChannelsFile);
      c.Some? && (entries[u].content.None? || entries[c.value].content.None?)
    ensures r != Failure(TypeError)
    ensures r.Success? ==>
      exists u, c :: 0 <= u < |entries| && 0 <= c < |entries| &&
        IsUsersFile(entries[u]) && r.value.rootDir == RootDir(entries[u].name) &&
        entries[c].name == r.value.rootDir + ChannelsFile && !entries[c].isDir &&
        entries[u].content == Some(r.value.usersData) &&
        entries[c].content == Some(r.value.channelsData)
  {
    match FindUsersEntry(entries)
    case None => Failure(MissingUsers)
    case Some(u) =>
      var root := RootDir(entries[u].name);
      match LookupFile(entries, root + ChannelsFile)
      case None => Failure(MissingChannels)
      case Some(c) =>
        if entries[u].content.None? || entries[c].content.None? then Failure(SyntaxError)
        else Success(Prepared(root, entries[u].content.value, entries[c].content.value))
  }

  /** An archive without a `channels.json` beside its `users.json` is rejected. */
  lemma MissingChannelsRejected(entries: seq<Entry>)
    requires FindUsersEntry(entries).Some?
    requires forall j :: 0 <= j < |entries| ==>
      entries[j].name != RootDir(entries[FindUsersEntry(entries).value].name) + ChannelsFile || entries[j].isDir
    ensures Prepare(entries) == Failure(MissingChannels)
  {
  }
}
