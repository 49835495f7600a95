/** The user notes handlers over the AddNotes collection: the filter by
    (user, course), create, overwrite of the note text, and delete by id. */
module Notes {
  import opened Common

  datatype Note = Note(userId: Id, courseId: Id, note: string)

  /** The validated body (addNotesSchema). */
  datatype NoteInput = NoteInput(note: string)

  /** The notes AddNotes.find({ userId, courseId }) returns, by id. */
  function NotesFor(notes: map<Id, Note>, userId: Id, courseId: Id): (r: map<Id, Note>)
    ensures forall id :: id in r <==> id in notes && notes[id].userId == userId && notes[id].courseId == courseId
    ensures forall id :: id in r ==> r[id] == notes[id]
  {
    map id | id in notes && notes[id].userId == userId && notes[id].courseId == courseId :: notes[id]
  }

  /** Storing a note under `id` adds it to exactly the filter of its own user
      and course, and takes `id` out of every other filter. */
  lemma {:induction false} NotesForAfterStore(notes: map<Id, Note>, id: Id, n: Note, userId: Id, courseId: Id)
    ensures NotesFor(notes[id := n], userId, courseId)
         == if n.userId == userId && n.courseId == courseId then NotesFor(notes, userId, courseId)[id := n]
            else NotesFor(notes, userId, courseId) - {id}
  {
    var lhs := NotesFor(notes[id := n], userId, courseId);
    var rhs := if n.userId == userId && n.courseId == courseId then NotesFor(notes, userId, courseId)[id := n]
               else NotesFor(notes, userId, courseId) - {id};
    assert lhs.Keys == rhs.Keys;
    forall k | k in lhs ensures lhs[k] == rhs[k] {
    }
  }

  /** Removing a note takes it out of its filter and leaves the rest of every filter alone. */
  lemma {:induction false} NotesForAfterRemove(notes: map<Id, Note>, id: Id, userId: Id, courseId: Id)
    ensures NotesFor(notes - {id}, userId, courseId) == NotesFor(notes, userId, courseId) - {id}
  {
    var lhs := NotesFor(notes - {id}, userId, courseId);
    var rhs := NotesFor(notes, userId, courseId) - {id};
    assert lhs.Keys == rhs.Keys;
  }

  class NoteStore {
    var notes: map<Id, Note>

    constructor ()
      ensures notes == map[]
    {
      notes := map[];
    }

    /** getNotes: the caller's notes for the course. An empty result is a
        success: find returns an array, which is never falsy. */
    function GetNotes(userId: Id, courseId: Id, isValidObjectId: Id -> bool): (r: Result<Reply<map<Id, Note>>>)
      reads this
      ensures !isValidObjectId(courseId) ==> r == Err(MessageOnly("Invalid courseId"))
      ensures isValidObjectId(courseId) ==> r.Ok? && r.value.status == 200 && r.value.message == "AddNotes fetched successfully"
      ensures r.Ok? ==> forall id :: id in r.value.data <==> id in notes && notes[id] == Note(userId, courseId, notes[id].note)
      ensures r.Ok? ==> forall id :: id in r.value.data ==> r.value.data[id] == notes[id]
    {
      if !isValidObjectId(courseId) then Err(MessageOnly("Invalid courseId"))
      else Ok(Reply(200, "AddNotes fetched successfully", NotesFor(notes, userId, courseId)))
    }

    /** createNote: the id check comes before the body check. */
    method CreateNote(userId: Id, courseId: Id, body: Parsed<NoteInput>, isValidObjectId: Id -> bool, newId: Id)
      returns (r: Result<Reply<Note>>)
      requires newId !in notes
      modifies this`notes
      ensures !isValidObjectId(courseId) ==> r == Err(MessageOnly("Invalid courseId")) && notes == old(notes)
      ensures isValidObjectId(courseId) && body.Invalid? ==> r == Err(MessageOnly(body.message)) && notes == old(notes)
      ensures isValidObjectId(courseId) && body.Valid? ==>
        var created := Note(userId, courseId, body.data.note);
        r == Ok(Reply(200, "AddNotes updated successfully", created)) && notes == old(notes)[newId := created]
    {
      if !isValidObjectId(courseId) {
        return Err(MessageOnly("Invalid courseId"));
      }
      if body.Invalid? {
        return Err(MessageOnly(body.message));
      }
      var created := Note(userId, courseId, body.data.note);
      notes := notes[newId := created];
      r := Ok(Reply(200, "AddNotes updated successfully", created));
    }

    /** updateNote: only the note text of that note changes; whose note it is
        is not checked. */
    method UpdateNote(noteId: Id, body: Parsed<NoteInput>, isValidObjectId: Id -> bool)
      returns (r: Result<Reply<Note>>)
      modifies this`notes
      ensures !isValidObjectId(noteId) ==> r == Err(MessageOnly("Invalid courseId")) && notes == old(notes)
      ensures isValidObjectId(noteId) && body.Invalid? ==> r == Err(MessageOnly(body.message)) && notes == old(notes)
      ensures isValidObjectId(noteId) && body.Valid? && noteId !in old(notes) ==>
        r == Err(MessageOnly("AddNotes not found")) && notes == old(notes)
      ensures isValidObjectId(noteId) && body.Valid? && noteId in old(notes) ==>
        var updated := old(notes)[noteId].(note := body.data.note);
        r == Ok(Reply(200, "AddNotes updated successfully", updated)) && notes == old(notes)[noteId := updated]
    {
      if !isValidObjectId(noteId) {
        return Err(MessageOnly("Invalid courseId"));
      }
      if body.Invalid? {
        return Err(MessageOnly(body.message));
      }
      if noteId !in notes {
        return Err(MessageOnly("AddNotes not found"));
      }
      var updated := notes[noteId].(note := body.data.note);
      notes := notes[noteId := updated];
      r := Ok(Reply(200, "AddNotes updated successfully", updated));
    }

    /** deleteAddNotes: removes exactly that note; whose note it is is not checked. */
    method DeleteAddNotes(noteId: Id, isValidObjectId: Id -> bool) returns (r: Result<Reply<Note>>)
      modifies this`notes
      ensures !isValidObjectId(noteId) ==> r == Err(MessageOnly("Invalid courseId")) && notes == old(notes)
      ensures isValidObjectId(noteId) && noteId !in old(notes) ==>
        r == Err(MessageOnly("AddNotes not found")) && notes == old(notes)
      ensures isValidObjectId(noteId) && noteId in old(notes) ==>
        r == Ok(Reply(200, "AddNotes deleted successfully", old(notes)[noteId])) && notes == old(notes) - {noteId}
    {
      if !isValidObjectId(noteId) {
        return Err(MessageOnly("Invalid courseId"));
      }
      if noteId !in notes {
        return Err(MessageOnly("AddNotes not found"));
      }
      var removed := notes[noteId];
      notes := notes - {noteId};
      r := Ok(Reply(200, "AddNotes deleted successfully", removed));
    }
  }

  /** A note created by a user for a course is among that user's notes for
      that course afterwards. */
  method CreateThenList(store: NoteStore, userId: Id, courseId: Id, text: string, isValidObjectId: Id -> bool, newId: Id)
    returns (created: Result<Reply<Note>>, listed: Result<Reply<map<Id, Note>>>)
    requires newId !in store.notes && isValidObjectId(courseId)
    modifies store
    ensures listed.Ok? && newId in listed.value.data && listed.value.data[newId] == Note(userId, courseId, text)
  {
    created := store.CreateNote(userId, courseId, Valid(NoteInput(text)), isValidObjectId, newId);
    listed := store.GetNotes(userId, courseId, isValidObjectId);
  }
}
