/** Request sequences against one store, stated as client methods: what a
    caller can conclude from the handlers' contracts alone. */
module NoteScenarios {
  import opened NoteModel
  import opened NoteServer

  /** Create a note tagged "home", list by that tag, change its content,
      delete it, list again. */
  method Groceries(now: nat) returns (created: Response, listed: Response, updated: Response,
                                      deleted: Response, relisted: Response)
    ensures created.status == Created && created.body.OneNote?
    ensures created.body.note.title == "Groceries" && created.body.note.content == "Milk, eggs"
    ensures created.body.note.tags == ["home"] && created.body.note.createdAt == now
    ensures listed == Response(Ok, Notes([created.body.note]))
    ensures updated.status == Ok && updated.body.OneNote?
    ensures updated.body.note == created.body.note.(content := "Milk, eggs, bread")
    ensures deleted == Response(Ok, Message(NoteDeleted))
    ensures relisted == Response(Ok, Notes([]))
  {
    var store := new NoteStore();
    created := store.Create(Some("Groceries"), Some("Milk, eggs"), Some(["home"]), now, false);
    var n := created.body.note;
    assert store.notes == [n];
    listed := store.List(Some("home"), false);
    SingleByMultiset(listed.body.notes, n);
    assert n.id in store.Ids() by { assert n in store.notes; }
    updated := store.Update(n.id, None, Some("Milk, eggs, bread"), None, false);
    assert store.notes[0] == updated.body.note;
    var u := updated.body.note;
    assert u.id in store.Ids() by { assert u in store.notes; }
    deleted := store.Delete(u.id, false);
    assert store.notes == [];
    relisted := store.List(Some("home"), false);
    assert multiset(relisted.body.notes) == multiset{};
  }

  /** A sequence whose multiset is one note is that note alone. */
  lemma SingleByMultiset(s: seq<Note>, n: Note)
    requires forall m :: multiset(s)[m] == if m == n then 1 else 0
    ensures s == [n]
  {
    assert multiset(s) == multiset{n};
    assert |s| == 1;
    assert s[0] in multiset(s);
  }

  /** Deleting the same note twice: the second request finds nothing. */
  method DeleteTwice(store: NoteStore, id: NoteId) returns (first: Response, second: Response)
    requires store.Valid() && id in store.Ids()
    modifies store
    ensures store.Valid() && id !in store.Ids()
    ensures first == Response(Ok, Message(NoteDeleted))
    ensures second == Response(NotFound, Message(NoteMissing))
  {
    first := store.Delete(id, false);
    second := store.Delete(id, false);
  }

  /** An update may blank a title that creation would have refused; the
      refused note was never stored and the blanked one is what is listed. */
  method BlankTitle(now: nat) returns (rejected: Response, updated: Response, listed: Response)
    ensures rejected == Response(BadRequest, Message(FieldsRequired))
    ensures updated.status == Ok && updated.body.OneNote? && updated.body.note.title == ""
    ensures listed == Response(Ok, Notes([updated.body.note]))
  {
    var store := new NoteStore();
    rejected := store.Create(Some(""), Some("body"), None, now, false);
    var created := store.Create(Some("title"), Some("body"), None, now, false);
    var id := created.body.note.id;
    assert id in store.Ids() by { assert store.notes[0] == created.body.note; }
    updated := store.Update(id, Some(""), None, None, false);
    assert store.notes[0] == updated.body.note;
    assert store.notes == [updated.body.note];
    listed := store.List(None, false);
    SingleByMultiset(listed.body.notes, updated.body.note);
  }

  /** A note created later is listed before one created earlier. */
  method NewerFirst(t: nat) returns (older: Response, newer: Response, listed: Response)
    ensures older.status == Created && newer.status == Created
    ensures older.body.OneNote? && newer.body.OneNote?
    ensures listed == Response(Ok, Notes([newer.body.note, older.body.note]))
  {
    var store := new NoteStore();
    older := store.Create(Some("A"), Some("first"), None, t, false);
    newer := store.Create(Some("B"), Some("second"), None, t + 1, false);
    var a, b := older.body.note, newer.body.note;
    assert store.notes == [a, b];
    listed := store.List(None, false);
    var r := listed.body.notes;
    assert multiset(r) == multiset{a, b} by {
      assert multiset(store.notes) == multiset{a, b};
      forall m ensures multiset(r)[m] == multiset{a, b}[m] { }
    }
    assert |r| == 2;
    assert r[0] in multiset(r) && r[1] in multiset(r);
    assert r[0].createdAt >= r[1].createdAt;
  }
}
