/** The note handlers of backend/src/controller/notesController.js: the same
    owner-scoped create, read, update and delete pattern as transactions,
    without validation. */
module NotesController {
  import opened Wrappers
  import opened Responses
  import opened DocumentQuery

  type UserId = nat
  type Date = int

  /** A stored note with the timestamps the store maintains. */
  datatype Note = Note(id: Id, userId: UserId, title: string, content: string, createdAt: Date, updatedAt: Date)

  function NoteId(n: Note): Id { n.id }

  /** Notes are listed newest `createdAt` first. */
  function CreatedKey(n: Note): SortKey {
    SortKey(n.createdAt, 0)
  }

  class NoteStore {
    var notes: map<Id, Note>
    var nextId: Id
    var clock: Date

    ghost predicate Valid()
      reads this
    {
      && KeyedById(notes, NoteId)
      && forall k :: k in notes ==>
           && k < nextId
           && notes[k].createdAt <= notes[k].updatedAt < clock
    }

    constructor (now: Date)
      ensures Valid()
      ensures notes == map[] && clock == now
    {
      notes := map[];
      nextId := 0;
      clock := now;
    }

    ghost predicate Stored(n: Note)
      reads this
    {
      n.id in notes && notes[n.id] == n
    }

    predicate Owned(caller: UserId, id: Id)
      reads this
    {
      id in notes && notes[id].userId == caller
    }

    /** getAllNotes: every note of the caller exactly once, and no other
        note, newest first. */
    method GetAll(caller: UserId) returns (r: seq<Note>)
      requires Valid()
      ensures forall n :: multiset(r)[n] == if Stored(n) && n.userId == caller then 1 else 0
      ensures Descending(r, CreatedKey)
      ensures forall i, j :: 0 <= i < j < |r| ==> r[i].createdAt >= r[j].createdAt
    {
      var keep := (n: Note) => n.userId == caller;
      var found := Scan(notes, keep, 0, nextId);
      r := SortDesc(found, CreatedKey);
      forall n
        ensures multiset(r)[n] == if Stored(n) && n.userId == caller then 1 else 0
      {
        ScanCount(notes, keep, NoteId, 0, nextId, n);
      }
      forall i, j | 0 <= i < j < |r|
        ensures r[i].createdAt >= r[j].createdAt
      {
        assert AtLeast(CreatedKey(r[i]), CreatedKey(r[j]));
      }
    }

    /** getNoteById: the note when the caller owns it, otherwise 404. */
    method GetById(caller: UserId, id: Id) returns (r: Response<Note>)
      ensures r.Ok? <==> Owned(caller, id)
      ensures r.Ok? ==> r.body == notes[id] && r.body.userId == caller
      ensures !r.Ok? ==> r == NotFound
    {
      if Owned(caller, id) {
        r := Ok(notes[id]);
      } else {
        r := NotFound;
      }
    }

    /** createNote: stores a new note with this title and content, owned by
        the caller; nothing else changes. */
    method Create(caller: UserId, title: string, content: string) returns (r: Response<Note>)
      requires Valid()
      modifies this
      ensures Valid()
      ensures r.Created?
      ensures r.body.id !in old(notes) && notes == old(notes)[r.body.id := r.body]
      ensures r.body.userId == caller && r.body.title == title && r.body.content == content
      ensures r.body.createdAt == r.body.updatedAt == old(clock)
    {
      var n := Note(nextId, caller, title, content, clock, clock);
      notes := notes[nextId := n];
      nextId := nextId + 1;
      clock := clock + 1;
      r := Created(n);
    }

    /** updateNote: replaces the title and the content the body gives on the
        caller-owned note; an absent field keeps its value and the owner
        never changes. With no owned note the store is unchanged. */
    method Update(caller: UserId, id: Id, title: Option<string>, content: Option<string>)
      returns (r: Response<Note>)
      requires Valid()
      modifies this
      ensures Valid()
      ensures nextId == old(nextId)
      ensures !old(Owned(caller, id)) ==> r == NotFound && notes == old(notes) && clock == old(clock)
      ensures old(Owned(caller, id)) ==>
                var was := old(notes)[id];
                && r.Ok?
                && notes == old(notes)[id := r.body]
                && r.body.id == id && r.body.userId == was.userId == caller
                && r.body.createdAt == was.createdAt && r.body.updatedAt == old(clock)
                && r.body.title == (if title.Some? then title.value else was.title)
                && r.body.content == (if content.Some? then content.value else was.content)
    {
      if !Owned(caller, id) {
        return NotFound;
      }
      var was := notes[id];
      var n := was.(
        title := if title.Some? then title.value else was.title,
        content := if content.Some? then content.value else was.content,
        updatedAt := clock);
      notes := notes[id := n];
      clock := clock + 1;
      r := Ok(n);
    }

    /** deleteNote: removes only the caller-owned note with this id. */
    method Delete(caller: UserId, id: Id) returns (r: Response<Note>)
      requires Valid()
      modifies this
      ensures Valid()
      ensures nextId == old(nextId) && clock == old(clock)
      ensures old(Owned(caller, id)) ==> r == Deleted && notes == old(notes) - {id}
      ensures !old(Owned(caller, id)) ==> r == NotFound && notes == old(notes)
    {
      if Owned(caller, id) {
        notes := notes - {id};
        r := Deleted;
      } else {
        r := NotFound;
      }
    }
  }
}
