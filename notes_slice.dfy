/**
 * The notes slice of `store/slices`: a cache of notes with a loading flag and
 * an error value. Fetch replaces the cache, create appends, update replaces
 * the first note with the payload's id, delete filters out every note with
 * the id. Its four thunks catch every failure and reject with the response
 * body or a fixed message.
 */
module NotesSlice {
  import opened Api
  import opened NoteList

  const FETCH_FAILED := "Failed to fetch notes"
  const CREATE_FAILED := "Failed to create note"
  const UPDATE_FAILED := "Failed to update note"
  const DELETE_FAILED := "Failed to delete note"

  /** The actions this slice's reducer can receive. */
  datatype Action =
    | ClearError
    | FetchPending | FetchFulfilled(notes: seq<Note>) | FetchRejected(reason: JsValue)
    | CreatePending | CreateFulfilled(note: Note) | CreateRejected(reason: JsValue)
    | UpdatePending | UpdateFulfilled(note: Note) | UpdateRejected(reason: JsValue)
    | DeletePending | DeleteFulfilled(noteId: NoteId) | DeleteRejected(reason: JsValue)
  {
    /** The action types the reducer has a case for. */
    predicate Handled() {
      ClearError? || FetchPending? || FetchFulfilled? || FetchRejected? ||
      CreateFulfilled? || UpdateFulfilled? || DeleteFulfilled?
    }
  }

  // ---------------------------------------------------------------------
  // Thunks: the action each one settles with
  // ---------------------------------------------------------------------

  /** `fetchNotes`: fulfilled with the response body, or rejected with a present reason. */
  function FetchNotes(outcome: Settled<seq<Note>>): (a: Action)
    ensures outcome.Resolved? <==> a.FetchFulfilled?
    ensures outcome.Resolved? ==> a.notes == outcome.value
    ensures outcome.Thrown? ==>
              a == FetchRejected(FirstPresent([ResponseData(outcome.error)], Str(FETCH_FAILED)))
    ensures a.FetchRejected? ==> Truthy(a.reason)
  {
    match outcome
    case Resolved(notes) => FetchFulfilled(notes)
    case Thrown(e) => FetchRejected(RejectValue(e, Str(FETCH_FAILED)))
  }

  /** `createNote`: fulfilled with the created note, or rejected with a present reason. */
  function CreateNote(outcome: Settled<Note>): (a: Action)
    ensures outcome.Resolved? <==> a.CreateFulfilled?
    ensures outcome.Resolved? ==> a.note == outcome.value
    ensures outcome.Thrown? ==>
              a == CreateRejected(FirstPresent([ResponseData(outcome.error)], Str(CREATE_FAILED)))
    ensures a.CreateRejected? ==> Truthy(a.reason)
  {
    match outcome
    case Resolved(note) => CreateFulfilled(note)
    case Thrown(e) => CreateRejected(RejectValue(e, Str(CREATE_FAILED)))
  }

  /** `updateNote`: fulfilled with the note the server returns, or rejected with a present reason. */
  function UpdateNote(outcome: Settled<Note>): (a: Action)
    ensures outcome.Resolved? <==> a.UpdateFulfilled?
    ensures outcome.Resolved? ==> a.note == outcome.value
    ensures outcome.Thrown? ==>
              a == UpdateRejected(FirstPresent([ResponseData(outcome.error)], Str(UPDATE_FAILED)))
    ensures a.UpdateRejected? ==> Truthy(a.reason)
  {
    match outcome
    case Resolved(note) => UpdateFulfilled(note)
    case Thrown(e) => UpdateRejected(RejectValue(e, Str(UPDATE_FAILED)))
  }

  /**
   * `deleteNote`: fulfilled with the id it was asked to delete (the response
   * body is ignored), or rejected with a present reason.
   */
  function DeleteNote(noteId: NoteId, outcome: Settled<JsValue>): (a: Action)
    ensures outcome.Resolved? <==> a.DeleteFulfilled?
    ensures outcome.Resolved? ==> a.noteId == noteId
    ensures outcome.Thrown? ==>
              a == DeleteRejected(FirstPresent([ResponseData(outcome.error)], Str(DELETE_FAILED)))
    ensures a.DeleteRejected? ==> Truthy(a.reason)
  {
    match outcome
    case Resolved(_) => DeleteFulfilled(noteId)
    case Thrown(e) => DeleteRejected(RejectValue(e, Str(DELETE_FAILED)))
  }

  // ---------------------------------------------------------------------
  // The slice state and its reducer cases
  // ---------------------------------------------------------------------

  class State {
    var items: seq<Note>
    var isLoading: bool
    var error: JsValue

    /** The initial state: no notes, not loading, no error. */
    constructor ()
      ensures items == [] && !isLoading && error == Null
    {
      items, isLoading, error := [], false, Null;
    }

    /** `clearError`: only the error changes. */
    method ClearError()
      modifies this`error
      ensures error == Null
    {
      error := Null;
    }

    /** `fetchNotes.pending`: loading, error cleared, cached notes kept. */
    method FetchPending()
      modifies this`isLoading, this`error
      ensures isLoading && error == Null
    {
      isLoading := true;
      error := Null;
    }

    /** `fetchNotes.fulfilled`: the cache becomes exactly the payload; the error is left as it was. */
    method FetchFulfilled(payload: seq<Note>)
      modifies this`isLoading, this`items
      ensures !isLoading && items == payload
    {
      isLoading := false;
      items := payload;
    }

    /** `fetchNotes.rejected`: the error becomes the payload; cached notes kept. */
    method FetchRejected(payload: JsValue)
      modifies this`isLoading, this`error
      ensures !isLoading && error == payload
    {
      isLoading := false;
      error := payload;
    }

    /** `createNote.fulfilled`: the payload is pushed at the end; every earlier note keeps its position. */
    method CreateFulfilled(payload: Note)
      modifies this`items
      ensures items == old(items) + [payload]
      ensures |items| == |old(items)| + 1
      ensures items[..|old(items)|] == old(items) && items[|old(items)|] == payload
    {
      items := items + [payload];
    }

    /**
     * `updateNote.fulfilled`: the first cached note with the payload's id is
     * overwritten by the payload; without such a note nothing changes.
     */
    method UpdateFulfilled(payload: Note)
      modifies this`items
      ensures items == ReplaceFirst(old(items), payload)
      ensures Ids(items) == Ids(old(items))
    {
      var index := FindIndex(items, payload.note_id);
      ReplaceFirstAt(items, payload);
      ReplaceFirstPreservesIds(items, payload);
      if index != -1 {
        items := items[index := payload];
      }
    }

    /** `deleteNote.fulfilled`: every cached note with the id is filtered out. */
    method DeleteFulfilled(payload: NoteId)
      modifies this`items
      ensures items == RemoveId(old(items), payload)
      ensures payload !in Ids(items)
    {
      items := RemoveId(items, payload);
    }

    /**
     * The reducer: each handled action goes to its case; the pending and
     * rejected actions of create, update and delete have no case and leave
     * the state as it was (in particular a failed create, update or delete
     * records no error).
     */
    method Reduce(a: Action)
      modifies this
      ensures !a.Handled() ==> unchanged(this)
      ensures a.ClearError? ==> (items, isLoading, error) == (old(items), old(isLoading), Null)
      ensures a.FetchPending? ==> (items, isLoading, error) == (old(items), true, Null)
      ensures a.FetchFulfilled? ==> (items, isLoading, error) == (a.notes, false, old(error))
      ensures a.FetchRejected? ==> (items, isLoading, error) == (old(items), false, a.reason)
      ensures a.CreateFulfilled? ==>
                (items, isLoading, error) == (old(items) + [a.note], old(isLoading), old(error))
      ensures a.UpdateFulfilled? ==>
                (items, isLoading, error) == (ReplaceFirst(old(items), a.note), old(isLoading), old(error))
      ensures a.DeleteFulfilled? ==>
                (items, isLoading, error) == (RemoveId(old(items), a.noteId), old(isLoading), old(error))
    {
      match a
      case ClearError => ClearError();
      case FetchPending => FetchPending();
      case FetchFulfilled(notes) => FetchFulfilled(notes);
      case FetchRejected(reason) => FetchRejected(reason);
      case CreateFulfilled(note) => CreateFulfilled(note);
      case UpdateFulfilled(note) => UpdateFulfilled(note);
      case DeleteFulfilled(noteId) => DeleteFulfilled(noteId);
      case _ =>
    }
  }
}
