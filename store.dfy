/** The local store's tables as in-memory sequences, with the operations
    the import and the workspace delete use. */
module Store {
  import opened Json

  type Blob = seq<bv8>

  /** A `workspaces` row; `importedAt` is not modelled. */
  datatype Workspace = Workspace(id: nat, name: string)

  /** A `sections` row (sidebar grouping); only the delete's frame mentions it. */
  datatype Section = Section(id: nat, workspaceId: nat, name: string, order: int)

  /** A `files` row: `{ workspaceId, fileId, blob, mimeType }`. */
  datatype FileRow = FileRow(workspaceId: nat, fileId: Value, blob: Blob, mimeType: Value)

  /** `where({ workspaceId: id })` matches this row. */
  predicate BelongsTo(row: Row, id: nat)
  {
    "workspaceId" in row && row["workspaceId"] == NumOf(id)
  }

  /** `table.where({ workspaceId: id }).delete()`: the rows that remain. */
  function WithoutWorkspace(rows: seq<Row>, id: nat): (r: seq<Row>)
    ensures |r| <= |rows|
    ensures forall x :: x in r <==> x in rows && !BelongsTo(x, id)
  {
    if rows == [] then []
    else (if BelongsTo(rows[0], id) then [] else [rows[0]]) + WithoutWorkspace(rows[1..], id)
  }

  /** The rows of workspace `id`, in table order. */
  function RowsOf(rows: seq<Row>, id: nat): seq<Row>
  {
    if rows == [] then []
    else (if BelongsTo(rows[0], id) then [rows[0]] else []) + RowsOf(rows[1..], id)
  }

  /** Deleting one workspace's rows leaves every other workspace's rows
      exactly as they were, in the same order, and leaves none of its own. */
  lemma {:induction false} WithoutWorkspaceKeepsOthers(rows: seq<Row>, id: nat, other: nat)
    ensures other != id ==> RowsOf(WithoutWorkspace(rows, id), other) == RowsOf(rows, other)
    ensures RowsOf(WithoutWorkspace(rows, id), id) == []
  {
    if rows != [] {
      WithoutWorkspaceKeepsOthers(rows[1..], id, other);
      var head := if BelongsTo(rows[0], id) then [] else [rows[0]];
      var tail := WithoutWorkspace(rows[1..], id);
      assert WithoutWorkspace(rows, id) == head + tail;
      RowsOfAppend(head, tail, other);
      RowsOfAppend(head, tail, id);
      if head != [] {
        assert head[1..] == [];
      }
    }
  }

  /** The delete removes exactly the workspace's rows: what remains and what
      is removed together account for every row. */
  lemma {:induction false} WithoutWorkspaceCount(rows: seq<Row>, id: nat)
    ensures |WithoutWorkspace(rows, id)| + |RowsOf(rows, id)| == |rows|
  {
    if rows != [] {
      WithoutWorkspaceCount(rows[1..], id);
    }
  }

  /** `WithoutWorkspaceKeepsOthers` for every other workspace at once. */
  lemma AllOthersKept(rows: seq<Row>, id: nat)
    ensures forall other :: other != id ==> RowsOf(WithoutWorkspace(rows, id), other) == RowsOf(rows, other)
  {
    forall other | other != id
      ensures RowsOf(WithoutWorkspace(rows, id), other) == RowsOf(rows, other)
    {
      WithoutWorkspaceKeepsOthers(rows, id, other);
    }
  }

  lemma {:induction false} RowsOfAppend(a: seq<Row>, b: seq<Row>, id: nat)
    ensures RowsOf(a + b, id) == RowsOf(a, id) + RowsOf(b, id)
  {
    if a != [] {
      assert (a + b)[1..] == a[1..] + b;
      RowsOfAppend(a[1..], b, id);
    } else {
      assert a + b == b;
    }
  }

  /** `workspaces.delete(id)`: remove the row with that primary key. */
  function RemoveWorkspace(ws: seq<Workspace>, id: nat): (r: seq<Workspace>)
    ensures forall w :: w in r <==> w in ws && w.id != id
  {
    if ws == [] then []
    else (if ws[0].id == id then [] else [ws[0]]) + RemoveWorkspace(ws[1..], id)
  }

  /** The IndexedDB database `SlackViewerDB`. */
  class Db {
    var workspaces: seq<Workspace>
    var users: seq<Row>
    var channels: seq<Row>
    var messages: seq<Row>
    var files: seq<FileRow>
    var sections: seq<Section>
    /** The `workspaces` key generator (`++id`). */
    var nextId: nat

    ghost predicate Valid()
      reads this
    {
      forall i :: 0 <= i < |workspaces| ==> workspaces[i].id < nextId
    }

    /** `workspaces.add(...)`: a fresh key, never used by a present row. */
    method AddWorkspace(name: string) returns (id: nat)
      requires Valid()
      modifies this`workspaces, this`nextId
      ensures Valid()
      ensures id == old(nextId) && nextId == id + 1
      ensures forall i :: 0 <= i < |old(workspaces)| ==> old(workspaces)[i].id != id
      ensures workspaces == old(workspaces) + [Workspace(id, name)]
    {
      id := nextId;
      workspaces := workspaces + [Workspace(id, name)];
      nextId := nextId + 1;
    }

    method BulkAddUsers(rows: seq<Row>)
      modifies this`users
      ensures users == old(users) + rows
    {
      users := users + rows;
    }

    method BulkAddChannels(rows: seq<Row>)
      modifies this`channels
      ensures channels == old(channels) + rows
    {
      channels := channels + rows;
    }

    method BulkAddMessages(rows: seq<Row>)
      modifies this`messages
      ensures messages == old(messages) + rows
    {
      messages := messages + rows;
    }

    method AddFile(row: FileRow)
      modifies this`files
      ensures files == old(files) + [row]
    {
      files := files + [row];
    }
  }
}
