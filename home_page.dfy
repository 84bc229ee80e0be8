/** `handleDelete` of the home page (src/app/page.tsx): the cascading
    delete of one workspace. */
module HomePage {
  import opened Store

  /** `handleDelete(e, id)`. `confirmed` is the answer to the `confirm`
      dialog; the four deletions form one read-write transaction over
      `workspaces`, `users`, `channels` and `messages`, so they take effect
      together, and `files` and `sections` are outside its scope. */
  method HandleDelete(db: Db, id: nat, confirmed: bool)
    requires db.Valid()
    modifies db`workspaces, db`users, db`channels, db`messages
    ensures db.Valid()
    ensures !confirmed ==> (db.workspaces == old(db.workspaces) && db.users == old(db.users) &&
      db.channels == old(db.channels) && db.messages == old(db.messages))
    ensures confirmed ==> (
      db.workspaces == RemoveWorkspace(old(db.workspaces), id) &&
      db.users == WithoutWorkspace(old(db.users), id) &&
      db.channels == WithoutWorkspace(old(db.channels), id) &&
      db.messages == WithoutWorkspace(old(db.messages), id))
    ensures confirmed ==> (
      (forall w :: w in db.workspaces ==> w.id != id) &&
      (forall row :: row in db.users ==> !BelongsTo(row, id)) &&
      (forall row :: row in db.channels ==> !BelongsTo(row, id)) &&
      (forall row :: row in db.messages ==> !BelongsTo(row, id)))
    ensures confirmed ==> forall other :: other != id ==> (
      RowsOf(db.users, other) == RowsOf(old(db.users), other) &&
      RowsOf(db.channels, other) == RowsOf(old(db.channels), other) &&
      RowsOf(db.messages, other) == RowsOf(old(db.messages), other))
    ensures db.files == old(db.files) && db.sections == old(db.sections) && db.nextId == old(db.nextId)
  {
    if !confirmed {
      return;
    }
    var users, channels, messages := WithoutWorkspace(db.users, id), WithoutWorkspace(db.channels, id), WithoutWorkspace(db.messages, id);
    AllOthersKept(db.users, id);
    AllOthersKept(db.channels, id);
    AllOthersKept(db.messages, id);
    db.workspaces := RemoveWorkspace(db.workspaces, id);
    db.users, db.channels, db.messages := users, channels, messages;
  }
}
