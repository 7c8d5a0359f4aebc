/** The four request handlers of the note service over one note collection.
    Each handler returns the status code and JSON body it would send.
    The collection is the object's state; `storeFails` stands for the store
    operation inside a handler raising an error (an unreachable store, or an
    identifier the store cannot parse), and `now` for the clock. */
module NoteServer {
  import opened NoteModel

  // Status codes, with the meanings of RFC 9110 (sections 15.3.1, 15.3.2,
  // 15.5.1, 15.5.5 and 15.6.1).
  const Ok: nat := 200
  const Created: nat := 201
  const BadRequest: nat := 400
  const NotFound: nat := 404
  const InternalServerError: nat := 500

  // The fixed messages of the handlers.
  const FetchFailed := "Could not fetch notes from the database."
  const FieldsRequired := "Title and content are required fields."
  const CreateFailed := "Could not create the new note."
  const NoteMissing := "Note not found with that ID."
  const UpdateFailed := "Could not update the note."
  const NoteDeleted := "Note deleted successfully."
  const DeleteFailed := "Could not delete the note."

  /** A JSON response body: one note, an array of notes, or `{message}`. */
  datatype Body = OneNote(note: Note) | Notes(notes: seq<Note>) | Message(text: string)

  datatype Response = Response(status: nat, body: Body)

  /** The note collection, in the order the store keeps its documents, and
      the source of fresh identifiers. */
  class NoteStore {
    var notes: seq<Note>
    var nextId: NoteId

    /** Identifiers are unique and all of them were handed out already, so
        the next identifier to hand out is not in use. */
    ghost predicate Valid()
      reads this
      ensures Valid() ==> nextId !in IdsOf(notes)
    {
      UniqueIds(notes) && forall k :: 0 <= k < |notes| ==> notes[k].id < nextId
    }

    /** The identifiers of the stored notes. */
    ghost function Ids(): set<NoteId>
      reads this
    {
      IdsOf(notes)
    }

    constructor ()
      ensures Valid() && notes == []
    {
      notes := [];
      nextId := 0;
    }

    /** GET /api/notes?tag=t: the stored notes carrying tag `t` when `t` is
        truthy, every stored note otherwise, most recently created first. */
    method List(tag: Option<string>, storeFails: bool) returns (res: Response)
      requires Valid()
      ensures storeFails ==> res == Response(InternalServerError, Message(FetchFailed))
      ensures !storeFails ==> res.status == Ok && res.body.Notes?
      ensures !storeFails ==> NewestFirst(res.body.notes)
      ensures !storeFails ==> forall n :: multiset(res.body.notes)[n] ==
                                if Selected(n, tag) then multiset(notes)[n] else 0
    {
      if storeFails {
        return Response(InternalServerError, Message(FetchFailed));
      }
      res := Response(Ok, Notes(Query(notes, tag)));
    }

    /** POST /api/notes: rejects a missing or empty title or content
        without touching the store; otherwise stores one new note under a
        fresh identifier, created at `now`, with no tags unless some are given. */
    method Create(title: Option<string>, content: Option<string>, tags: Option<seq<string>>,
                  now: nat, storeFails: bool) returns (res: Response)
      requires Valid()
      modifies this
      ensures Valid()
      ensures !(Truthy(title) && Truthy(content)) ==>
                res == Response(BadRequest, Message(FieldsRequired)) && unchanged(this)
      ensures Truthy(title) && Truthy(content) && storeFails ==>
                res == Response(InternalServerError, Message(CreateFailed)) && unchanged(this)
      ensures Truthy(title) && Truthy(content) && !storeFails ==>
                exists n: Note ::
                  && n.id !in old(Ids())
                  && n == Note(n.id, title.value, content.value, if tags.Some? then tags.value else [], now)
                  && notes == old(notes) + [n]
                  && Ids() == old(Ids()) + {n.id}
                  && res == Response(Created, OneNote(n))
    {
      if !Truthy(title) || !Truthy(content) {
        return Response(BadRequest, Message(FieldsRequired));
      }
      if storeFails {
        return Response(InternalServerError, Message(CreateFailed));
      }
      var n := Note(nextId, title.value, content.value, tags.GetOr([]), now);
      AppendFresh(notes, n);
      notes := notes + [n];
      nextId := nextId + 1;
      res := Response(Created, OneNote(n));
    }

    /** PATCH /api/notes/:id: overwrites the supplied fields of the note
        with that identifier and returns it as updated; no field is checked
        for emptiness. A missing note is reported with 404. */
    method Update(id: NoteId, title: Option<string>, content: Option<string>, tags: Option<seq<string>>,
                  storeFails: bool) returns (res: Response)
      requires Valid()
      modifies this
      ensures Valid() && Ids() == old(Ids()) && nextId == old(nextId)
      ensures res.status in {Ok, NotFound, InternalServerError}
      ensures storeFails ==>
                res == Response(InternalServerError, Message(UpdateFailed)) && unchanged(this)
      ensures !storeFails && id !in old(Ids()) ==>
                res == Response(NotFound, Message(NoteMissing)) && unchanged(this)
      ensures !storeFails && id in old(Ids()) ==>
                && |notes| == |old(notes)|
                && (forall k :: 0 <= k < |notes| && old(notes)[k].id != id ==> notes[k] == old(notes)[k])
                && (forall k :: 0 <= k < |notes| && old(notes)[k].id == id ==>
                      notes[k] == Patch(old(notes)[k], title, content, tags)
                      && res == Response(Ok, OneNote(notes[k])))
    {
      if storeFails {
        return Response(InternalServerError, Message(UpdateFailed));
      }
      match IndexOf(notes, id)
      case None =>
        res := Response(NotFound, Message(NoteMissing));
      case Some(i) =>
        var updated := Patch(notes[i], title, content, tags);
        ReplaceSameId(notes, i, updated);
        notes := notes[i := updated];
        res := Response(Ok, OneNote(updated));
    }

    /** DELETE /api/notes/:id: removes the note with that identifier and
        confirms it; a missing note is reported with 404. */
    method Delete(id: NoteId, storeFails: bool) returns (res: Response)
      requires Valid()
      modifies this
      ensures Valid() && nextId == old(nextId)
      ensures storeFails ==>
                res == Response(InternalServerError, Message(DeleteFailed)) && unchanged(this)
      ensures !storeFails && id !in old(Ids()) ==>
                res == Response(NotFound, Message(NoteMissing)) && unchanged(this)
      ensures !storeFails && id in old(Ids()) ==>
                && res == Response(Ok, Message(NoteDeleted))
                && Ids() == old(Ids()) - {id}
                && |notes| == |old(notes)| - 1
                && (forall m :: m in notes <==> m in old(notes) && m.id != id)
    {
      if storeFails {
        return Response(InternalServerError, Message(DeleteFailed));
      }
      match IndexOf(notes, id)
      case None =>
        res := Response(NotFound, Message(NoteMissing));
      case Some(i) =>
        RemoveAt(notes, i);
        notes := notes[..i] + notes[i + 1..];
        res := Response(Ok, Message(NoteDeleted));
    }
  }
}
