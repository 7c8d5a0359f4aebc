/** The note document and the pure part of the note service: the
    truthiness tests the handlers apply to their inputs, the tag filter and
    the newest-first ordering of the list handler, the partial update of a
    document, and the lookup of a document by its identifier. */
module NoteModel {

  /** Store-assigned identifiers are opaque; naturals stand for them. */
  type NoteId = nat

  /** An optional input: a request field or query parameter that may be absent. */
  datatype Option<T> = None | Some(value: T) {
    function GetOr(default: T): T {
      match this
      case Some(v) => v
      case None => default
    }
  }

  /** One stored note. `createdAt` is the creation instant as a timestamp. */
  datatype Note = Note(id: NoteId, title: string, content: string, tags: seq<string>, createdAt: nat)

  /** A string input is truthy in the handlers' tests when it is present and
      not the empty string. */
  predicate Truthy(s: Option<string>) {
    s.Some? && s.value != ""
  }

  /** The list handler's filter: a truthy tag keeps only the notes whose tag
      sequence contains that exact string; any other tag keeps every note. */
  predicate Selected(n: Note, tag: Option<string>) {
    !Truthy(tag) || tag.value in n.tags
  }

  /** No two notes of `s` share an identifier. */
  ghost predicate UniqueIds(s: seq<Note>) {
    forall i, j :: 0 <= i < j < |s| ==> s[i].id != s[j].id
  }

  /** The identifiers of the notes of `s`. */
  ghost function IdsOf(s: seq<Note>): set<NoteId> {
    set n | n in s :: n.id
  }

  /** Most recently created first: `createdAt` never increases along `s`. */
  ghost predicate NewestFirst(s: seq<Note>) {
    forall i, j :: 0 <= i < j < |s| ==> s[i].createdAt >= s[j].createdAt
  }

  /** The notes of `s` whose tags contain `t`, keeping each one as often as
      it occurs in `s`. */
  function WithTag(s: seq<Note>, t: string): (r: seq<Note>)
    ensures forall n :: multiset(r)[n] == if t in n.tags then multiset(s)[n] else 0
  {
    if s == [] then []
    else
      var rest := WithTag(s[1..], t);
      assert s == [s[0]] + s[1..];
      if t in s[0].tags then [s[0]] + rest else rest
  }

  /** The filter the list handler builds from its `tag` query parameter. */
  function Filter(s: seq<Note>, tag: Option<string>): (r: seq<Note>)
    ensures forall n :: multiset(r)[n] == if Selected(n, tag) then multiset(s)[n] else 0
  {
    if Truthy(tag) then WithTag(s, tag.value) else s
  }

  /** Places `n` into a newest-first sequence, before the first note that is
      not newer than it. */
  function Insert(n: Note, s: seq<Note>): (r: seq<Note>)
    ensures multiset(r) == multiset(s) + multiset{n}
    ensures |r| == |s| + 1 && (r[0] == n || (s != [] && r[0] == s[0]))
    ensures NewestFirst(s) ==> NewestFirst(r)
  {
    if s == [] || n.createdAt >= s[0].createdAt then
      assert NewestFirst(s) ==> NewestFirst([n] + s) by {
        if NewestFirst(s) { PrependNewest(n, s); }
      }
      [n] + s
    else
      var rest := Insert(n, s[1..]);
      assert s == [s[0]] + s[1..];
      assert NewestFirst(s) ==> NewestFirst([s[0]] + rest) by {
        if NewestFirst(s) { PrependNewest(s[0], rest); }
      }
      [s[0]] + rest
  }

  /** A note no older than the head of a newest-first sequence can go in front of it. */
  lemma PrependNewest(x: Note, s: seq<Note>)
    requires NewestFirst(s)
    requires s != [] ==> x.createdAt >= s[0].createdAt
    ensures NewestFirst([x] + s)
  {
  }

  /** Orders `s` by `createdAt`, most recent first. */
  function SortNewestFirst(s: seq<Note>): (r: seq<Note>)
    ensures NewestFirst(r)
    ensures multiset(r) == multiset(s)
  {
    if s == [] then []
    else
      assert s == [s[0]] + s[1..];
      Insert(s[0], SortNewestFirst(s[1..]))
  }

  /** The list handler's query: the selected notes, newest first. */
  function Query(s: seq<Note>, tag: Option<string>): (r: seq<Note>)
    ensures NewestFirst(r)
    ensures forall n :: multiset(r)[n] == if Selected(n, tag) then multiset(s)[n] else 0
  {
    SortNewestFirst(Filter(s, tag))
  }

  /** The partial update: each supplied field overwrites the stored one,
      each absent field keeps its stored value. */
  function Patch(n: Note, title: Option<string>, content: Option<string>, tags: Option<seq<string>>): (r: Note)
    ensures r.id == n.id && r.createdAt == n.createdAt
    ensures r.title == (if title.Some? then title.value else n.title)
    ensures r.content == (if content.Some? then content.value else n.content)
    ensures r.tags == (if tags.Some? then tags.value else n.tags)
  {
    Note(n.id, title.GetOr(n.title), content.GetOr(n.content), tags.GetOr(n.tags), n.createdAt)
  }

  /** The position of the note with identifier `id` in `s`, if there is one. */
  function IndexOf(s: seq<Note>, id: NoteId): (r: Option<nat>)
    ensures r.Some? ==> r.value < |s| && s[r.value].id == id
    ensures r.None? <==> id !in IdsOf(s)
  {
    if s == [] then None
    else if s[0].id == id then Some(0)
    else
      assert s == [s[0]] + s[1..];
      match IndexOf(s[1..], id)
      case None => None
      case Some(k) => Some(k + 1)
  }

  // Properties of the list query

  /** A note is listed exactly when it is stored and passes the filter. */
  lemma QueryMembers(s: seq<Note>, tag: Option<string>, n: Note)
    ensures n in Query(s, tag) <==> n in s && Selected(n, tag)
  {
    var r := Query(s, tag);
    assert n in r <==> multiset(r)[n] > 0;
    assert n in s <==> multiset(s)[n] > 0;
  }

  /** Without a truthy tag the query lists every stored note, each once per occurrence. */
  lemma QueryUnfilteredIsAll(s: seq<Note>, tag: Option<string>)
    requires !Truthy(tag)
    ensures multiset(Query(s, tag)) == multiset(s)
  {
  }

  /** Of two listed notes, the one created later is listed first. */
  lemma NewerListedFirst(s: seq<Note>, tag: Option<string>, i: nat, j: nat)
    requires i < |Query(s, tag)| && j < |Query(s, tag)|
    requires Query(s, tag)[i].createdAt > Query(s, tag)[j].createdAt
    ensures i < j
  {
  }

  /** A note just added to the store is listed exactly when it passes the filter. */
  lemma QueryFindsAdded(s: seq<Note>, n: Note, tag: Option<string>)
    ensures n in Query(s + [n], tag) <==> Selected(n, tag)
  {
  }

  // Properties of the partial update

  /** An update that supplies no field leaves the note as it was. */
  lemma PatchNothing(n: Note)
    ensures Patch(n, None, None, None) == n
  {
  }

  /** Applying the same partial update twice is the same as applying it once. */
  lemma PatchIdempotent(n: Note, title: Option<string>, content: Option<string>, tags: Option<seq<string>>)
    ensures Patch(Patch(n, title, content, tags), title, content, tags) == Patch(n, title, content, tags)
  {
  }

  // Properties of the store sequence

  /** Appending a note under an unused identifier keeps identifiers unique. */
  lemma AppendFresh(s: seq<Note>, n: Note)
    requires UniqueIds(s) && n.id !in IdsOf(s)
    ensures UniqueIds(s + [n]) && IdsOf(s + [n]) == IdsOf(s) + {n.id}
  {
  }

  /** Replacing a note by one with the same identifier keeps the identifiers. */
  lemma ReplaceSameId(s: seq<Note>, i: nat, n: Note)
    requires UniqueIds(s) && i < |s| && n.id == s[i].id
    ensures UniqueIds(s[i := n]) && IdsOf(s[i := n]) == IdsOf(s)
  {
    var r := s[i := n];
    forall x | x in IdsOf(s) ensures x in IdsOf(r) {
      var m :| m in s && m.id == x;
      var k :| 0 <= k < |s| && s[k] == m;
      assert r[k].id == x;
    }
    forall x | x in IdsOf(r) ensures x in IdsOf(s) {
      var m :| m in r && m.id == x;
      var k :| 0 <= k < |r| && r[k] == m;
      assert s[k].id == x;
    }
  }

  /** Removing the note at position `i` removes its identifier and no other note. */
  lemma RemoveAt(s: seq<Note>, i: nat)
    requires UniqueIds(s) && i < |s|
    ensures UniqueIds(s[..i] + s[i + 1..])
    ensures IdsOf(s[..i] + s[i + 1..]) == IdsOf(s) - {s[i].id}
    ensures forall m :: m in s[..i] + s[i + 1..] <==> m in s && m.id != s[i].id
  {
  }
}
