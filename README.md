# Note resource manager

A model of the note service's request handlers in `server.js`: the four
Express handlers for `GET`, `POST`, `PATCH` and `DELETE` on `/api/notes`,
working on one `Note` collection, and the schema defaults the create handler
relies on.

- `notes.dfy`, module `NoteModel`: the `Note` document (identifier, title,
  content, tag sequence, creation timestamp) and the pure part of the
  handlers. `Truthy` is JavaScript truthiness of an optional string (present
  and not `""`). `Selected` is the filter the list handler builds: a truthy
  `tag` means "the tag sequence contains exactly this string", and anything
  else means "every note". `Query` applies the filter and orders newest first.
  `Patch` is the partial update, and `IndexOf` looks a note up by identifier.
  Lemmas about these functions follow them.
- `server.dfy`, module `NoteServer`: class `NoteStore`, which holds the
  collection as a sequence of notes in the store's own order, together with a
  counter that hands out fresh identifiers. Its methods `List`, `Create`,
  `Update` and `Delete` each return a `Response` made of a status code and a
  JSON body. The body is one note, an array of notes, or a `{message}` object.
  The status codes and messages are the ones the handlers send. The codes
  carry their RFC 9110 meanings: 200 in section 15.3.1, 201 in section
  15.3.2, 400 in section 15.5.1, 404 in section 15.5.5 and 500 in
  section 15.6.1.
- `scenarios.dfy`, module `NoteScenarios`: request sequences whose outcomes
  follow from the handlers' contracts alone. They cover a create, list,
  update, delete and list walk-through, deleting twice, blanking a title by
  update, and newest-first listing.

Each handler takes a `storeFails` flag. It stands for the store call inside
the handler throwing, which the handler turns into that handler's 500
message. The clock (`Date.now`) is the `now` parameter of `Create`.

Behaviour of the document store library that the model takes as given,
not derived:

- the filter `{tags: t}` matches the documents whose `tags` array contains `t`;
- `sort({createdAt: -1})` orders by `createdAt`, largest first. The order of
  equal timestamps is left open by `List`'s contract;
- keys set to `undefined` are dropped from a `findByIdAndUpdate` payload, so
  a field that is not supplied keeps its stored value;
- `findByIdAndUpdate` runs no validators, so an empty title or content is
  stored as given;
- each store operation either happens in full or fails and changes nothing.

The schema marks `title` and `content` as `required` (server.js:34-35), and
the create handler checks them (server.js:67). `findByIdAndUpdate` runs no
validators, so an update may store an empty title or content
(`NoteScenarios.BlankTitle`). So `NoteStore.Valid` does not require them to
be non-empty.

## Model

| member | source | states |
|---|---|---|
| `NoteModel.Truthy` | server.js:67 | definition: JavaScript truthiness of an optional string, as used by the create check on `!title` and `!content` and by the list handler's `tag ? … : {}` (line 52); present and not `""` |
| `NoteModel.Selected` | server.js:52 | definition: the filter `tag ? { tags: tag } : {}`; with a falsy tag every note passes, with a truthy tag a note passes when its tags contain the tag, compared exactly and case-sensitively |
| `NoteModel.NewestFirst` | server.js:53 | definition: the order `sort({ createdAt: -1 })` yields; `createdAt` never increases along the sequence |
| `NoteModel.WithTag` | server.js:52-53 | each note occurs in the result exactly as often as in the collection when its tags contain the tag, and not at all otherwise |
| `NoteModel.Filter` | server.js:51-53 | a truthy tag keeps exactly the notes containing it; a missing or empty tag keeps every note with its multiplicity |
| `NoteModel.Insert` | server.js:53 | inserting a note adds exactly that note to the multiset, and keeps a newest-first sequence newest first |
| `NoteModel.PrependNewest` | server.js:53 | a note no older than the head of a newest-first sequence can go in front of it |
| `NoteModel.SortNewestFirst` | server.js:53 | the result is ordered by creation time, non-increasing, and is a permutation of the input |
| `NoteModel.Query` | server.js:51-54 | the listed notes are newest first and are exactly the selected stored notes, each with its multiplicity |
| `NoteModel.QueryMembers` | server.js:51-54 | a note is listed if and only if it is stored and passes the tag filter |
| `NoteModel.QueryUnfilteredIsAll` | server.js:52 | with no tag or an empty tag, the listing is a permutation of the whole collection |
| `NoteModel.NewerListedFirst` | server.js:53 | of two listed notes, the one with the later creation time comes first |
| `NoteModel.QueryFindsAdded` | server.js:52-53 | a note just added is listed exactly when its tags pass the filter |
| `NoteModel.Patch` | server.js:91-96 | supplied fields overwrite, absent fields are kept, identifier and creation time never change |
| `NoteModel.PatchNothing` | server.js:94 | an update supplying no field leaves the note unchanged |
| `NoteModel.PatchIdempotent` | server.js:94 | repeating the same partial update changes nothing further |
| `NoteModel.IndexOf` | server.js:92-97 | finds a position holding the identifier, and reports none exactly when no stored note has it |
| `NoteModel.AppendFresh` | server.js:73-79 | storing a note under an unused identifier keeps identifiers unique and adds exactly that identifier |
| `NoteModel.ReplaceSameId` | server.js:92-96 | replacing a note by its updated version keeps identifiers unique and the same |
| `NoteModel.RemoveAt` | server.js:110 | removing one note drops exactly its identifier and keeps every other note |
| `NoteServer.NoteStore.Valid` | server.js:40-42 | store-assigned identifiers are unique, and the next identifier to be handed out is not in use |
| `NoteServer.NoteStore.List` | server.js:49-61 | 500 with "Could not fetch notes from the database." on store failure; otherwise 200 with the selected notes, newest first, as a permutation; the store is not modified |
| `NoteServer.NoteStore.Create` | server.js:63-86 | 400 with "Title and content are required fields." when either is missing or empty, store untouched; 500 with "Could not create the new note." on store failure, store untouched; otherwise 201 with the new note, appended under a fresh identifier, earlier notes unchanged; the note has the given title and content, the given tags or the schema default `[]` (line 36), and `createdAt` equal to now (line 37) |
| `NoteServer.NoteStore.Update` | server.js:88-105 | 500 with "Could not update the note." on store failure and 404 with "Note not found with that ID." for an unknown identifier, both leaving the store unchanged; otherwise 200 with the note after patching, and every other note unchanged; never 400 |
| `NoteServer.NoteStore.Delete` | server.js:107-119 | 500 with "Could not delete the note." on store failure and 404 with "Note not found with that ID." for an unknown identifier, both leaving the store unchanged; otherwise 200 with "Note deleted successfully." and exactly that note removed |
| `NoteScenarios.Groceries` | server.js:49-119 | create, list by tag, update content, delete, list: 201 with the note, the one-note list, 200 with only the content changed and tags kept, the deletion message, an empty list |
| `NoteScenarios.DeleteTwice` | server.js:110-114 | a second delete of the same identifier yields 404 with "Note not found with that ID." |
| `NoteScenarios.BlankTitle` | server.js:63-100 | creation refuses an empty title with 400 and stores nothing, while an update to an empty title is accepted with 200 and the store then lists exactly the blanked note |
| `NoteScenarios.NewerFirst` | server.js:53 | of two notes created at successive instants, the later one is listed first |

## Left out

- Process start-up: loading the environment, the `PORT` default, the fatal
  exit when `MONGO_URI` is unset, connecting to the database and `app.listen`.
  These are environment and I/O.
- The CORS and JSON body-parsing middleware. It is third-party code.
- Logging through `console.error` and `console.log`. It has side effects only.
- How stored identifiers are generated and shown (ObjectId, hex `id` virtual,
  `toJSON` settings). Identifiers are naturals handed out by a counter, and
  `Create` promises only that the new one is unused.
- A malformed identifier, which makes the store throw a cast error, is not
  modelled as its own case. It is one of the failures `storeFails` stands for.
- Concurrency and async suspension. Each request runs alone against the
  store, and atomicity is the store's.
- Real dates. `createdAt` is a natural-number timestamp supplied as `now`, and
  JSON serialisation of dates is not modelled.
- The JSON shape of inputs. Request fields are `Option<string>` and
  `Option<seq<string>>`, and the tag query parameter is `Option<string>`.
  Non-string values, `null`, repeated query parameters and library casting
  (for example a single string given as `tags`) are not modelled.
- NoteServer.NoteStore.List: does not fix the order of notes with equal
  timestamps, because the store leaves it open.
