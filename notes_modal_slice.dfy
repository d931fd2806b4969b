/**
 * The notes slice of `store`: the same cache of notes (here `notes`, with a
 * `loading` flag and no error), except that create prepends, plus the state
 * of the note editor: whether the modal is shown, which note it edits, and
 * the form's fields.
 */
module NotesModalSlice {
  import opened Api
  import opened NoteList

  const TITLE_FIELD := "note_title"
  const CONTENT_FIELD := "note_content"

  /** The form of a new note: both fields empty. */
  function EmptyForm(): (f: map<string, string>)
    ensures f.Keys == {TITLE_FIELD, CONTENT_FIELD}
    ensures forall k :: k in f ==> f[k] == ""
  {
    map[TITLE_FIELD := "", CONTENT_FIELD := ""]
  }

  /** The form filled from a note: its title and its content, nothing else. */
  function FormOf(n: Note): (f: map<string, string>)
    ensures f.Keys == {TITLE_FIELD, CONTENT_FIELD}
    ensures f[TITLE_FIELD] == n.note_title && f[CONTENT_FIELD] == n.note_content
  {
    map[TITLE_FIELD := n.note_title, CONTENT_FIELD := n.note_content]
  }

  /**
   * `{ ...form, ...fields }`: every field of `fields` overrides, every other
   * field of `form` is kept, and no other field appears.
   */
  function Merge(form: map<string, string>, fields: map<string, string>): (r: map<string, string>)
    ensures r.Keys == form.Keys + fields.Keys
    ensures forall k :: k in fields ==> r[k] == fields[k]
    ensures forall k :: k in form && k !in fields ==> r[k] == form[k]
  {
    form + fields
  }

  /** An update with no fields leaves the form as it was. */
  lemma MergeNothing(form: map<string, string>)
    ensures Merge(form, map[]) == form
  {
  }

  /** Repeating the same form update changes nothing more. */
  lemma MergeIdempotent(form: map<string, string>, fields: map<string, string>)
    ensures Merge(Merge(form, fields), fields) == Merge(form, fields)
  {
  }

  /** The actions this slice's reducer can receive; the thunks reject without a payload. */
  datatype Action =
    | OpenModal(editing: Option<Note>) | CloseModal | UpdateFormData(fields: map<string, string>)
    | FetchPending | FetchFulfilled(notes: seq<Note>) | FetchRejected
    | CreatePending | CreateFulfilled(note: Note) | CreateRejected
    | UpdatePending | UpdateFulfilled(note: Note) | UpdateRejected
    | DeletePending | DeleteFulfilled(noteId: NoteId) | DeleteRejected
  {
    /** The action types the reducer has a case for. */
    predicate Handled() {
      OpenModal? || CloseModal? || UpdateFormData? || FetchPending? || FetchFulfilled? ||
      CreateFulfilled? || UpdateFulfilled? || DeleteFulfilled?
    }
  }

  /** `fetchNotes`: fulfilled with the notes the API returns; a failure rejects without a payload. */
  function FetchNotes(outcome: Settled<seq<Note>>): (a: Action)
    ensures outcome.Resolved? <==> a.FetchFulfilled?
    ensures outcome.Resolved? ==> a.notes == outcome.value
    ensures outcome.Thrown? <==> a == FetchRejected
  {
    match outcome
    case Resolved(notes) => FetchFulfilled(notes)
    case Thrown(_) => FetchRejected
  }

  /** `createNote`: fulfilled with the created note; a failure rejects without a payload. */
  function CreateNote(outcome: Settled<Note>): (a: Action)
    ensures outcome.Resolved? <==> a.CreateFulfilled?
    ensures outcome.Resolved? ==> a.note == outcome.value
    ensures outcome.Thrown? <==> a == CreateRejected
  {
    match outcome
    case Resolved(note) => CreateFulfilled(note)
    case Thrown(_) => CreateRejected
  }

  /** `updateNote`: fulfilled with the note the API returns; a failure rejects without a payload. */
  function UpdateNote(outcome: Settled<Note>): (a: Action)
    ensures outcome.Resolved? <==> a.UpdateFulfilled?
    ensures outcome.Resolved? ==> a.note == outcome.value
    ensures outcome.Thrown? <==> a == UpdateRejected
  {
    match outcome
    case Resolved(note) => UpdateFulfilled(note)
    case Thrown(_) => UpdateRejected
  }

  /** `deleteNote`: fulfilled with the id it was asked to delete; a failure rejects without a payload. */
  function DeleteNote(noteId: NoteId, outcome: Settled<JsValue>): (a: Action)
    ensures outcome.Resolved? <==> a.DeleteFulfilled?
    ensures outcome.Resolved? ==> a.noteId == noteId
    ensures outcome.Thrown? <==> a == DeleteRejected
  {
    match outcome
    case Resolved(_) => DeleteFulfilled(noteId)
    case Thrown(_) => DeleteRejected
  }

  class State {
    var notes: seq<Note>
    var loading: bool
    var showModal: bool
    var editingNote: Option<Note>
    var formData: map<string, string>

    /** The editor is closed, edits nothing and shows an empty form. */
    predicate ModalClosed()
      reads this
    {
      !showModal && editingNote == None && formData == EmptyForm()
    }

    /** The initial state: no notes, not loading, editor closed. */
    constructor ()
      ensures notes == [] && !loading && ModalClosed()
    {
      notes, loading := [], false;
      showModal, editingNote, formData := false, None, EmptyForm();
    }

    /**
     * `openModal`: shows the editor; with a note it edits that note and the
     * form holds exactly the note's title and content, without one it edits
     * nothing and the form is empty. Notes and loading are untouched.
     */
    method OpenModal(payload: Option<Note>)
      modifies this`showModal, this`editingNote, this`formData
      ensures showModal && editingNote == payload
      ensures payload.Some? ==> formData == FormOf(payload.value)
      ensures payload.None? ==> formData == EmptyForm()
    {
      showModal := true;
      editingNote := payload;
      formData := if payload.Some? then FormOf(payload.value) else EmptyForm();
    }

    /**
     * `closeModal`: back to the initial editor state, notes and loading
     * untouched; closing an editor that is already closed changes nothing.
     */
    method CloseModal()
      modifies this`showModal, this`editingNote, this`formData
      ensures ModalClosed()
      ensures old(ModalClosed()) ==> unchanged(this)
    {
      showModal := false;
      editingNote := None;
      formData := EmptyForm();
    }

    /** `updateFormData`: the payload's fields are merged over the form. */
    method UpdateFormData(payload: map<string, string>)
      modifies this`formData
      ensures formData == Merge(old(formData), payload)
    {
      formData := formData + payload;
    }

    /** `fetchNotes.pending`: loading; nothing else changes. */
    method FetchPending()
      modifies this`loading
      ensures loading
    {
      loading := true;
    }

    /** `fetchNotes.fulfilled`: the cache becomes exactly the payload. */
    method FetchFulfilled(payload: seq<Note>)
      modifies this`loading, this`notes
      ensures !loading && notes == payload
    {
      loading := false;
      notes := payload;
    }

    /**
     * `createNote.fulfilled`: the payload is put in front and every earlier
     * note moves up by one; the editor is hidden and its form emptied, but
     * the note it was editing is kept.
     */
    method CreateFulfilled(payload: Note)
      modifies this`notes, this`showModal, this`formData
      ensures notes == [payload] + old(notes)
      ensures |notes| == |old(notes)| + 1
      ensures notes[0] == payload && notes[1..] == old(notes)
      ensures !showModal && formData == EmptyForm()
    {
      notes := [payload] + notes;
      showModal := false;
      formData := EmptyForm();
    }

    /**
     * `updateNote.fulfilled`: the first note with the payload's id is
     * overwritten (the ids stay as they were), and the editor is closed.
     */
    method UpdateFulfilled(payload: Note)
      modifies this`notes, this`showModal, this`editingNote, this`formData
      ensures notes == ReplaceFirst(old(notes), payload)
      ensures Ids(notes) == Ids(old(notes))
      ensures ModalClosed()
    {
      var index := FindIndex(notes, payload.note_id);
      ReplaceFirstAt(notes, payload);
      ReplaceFirstPreservesIds(notes, payload);
      if index != -1 {
        notes := notes[index := payload];
      }
      showModal := false;
      editingNote := None;
      formData := EmptyForm();
    }

    /** `deleteNote.fulfilled`: every note with the id is filtered out; the editor is untouched. */
    method DeleteFulfilled(payload: NoteId)
      modifies this`notes
      ensures notes == RemoveId(old(notes), payload)
      ensures payload !in Ids(notes)
    {
      notes := RemoveId(notes, payload);
    }

    /**
     * The reducer: each handled action goes to its case; no case exists for
     * a rejected thunk or for the pending create, update and delete, so a
     * failed fetch leaves `loading` set.
     */
    method Reduce(a: Action)
      modifies this
      ensures !a.Handled() ==> unchanged(this)
      ensures a.OpenModal? ==>
                (notes, loading, showModal, editingNote, formData) ==
                (old(notes), old(loading), true, a.editing,
                 if a.editing.Some? then FormOf(a.editing.value) else EmptyForm())
      ensures a.CloseModal? ==>
                (notes, loading, showModal, editingNote, formData) ==
                (old(notes), old(loading), false, None, EmptyForm())
      ensures a.UpdateFormData? ==>
                (notes, loading, showModal, editingNote, formData) ==
                (old(notes), old(loading), old(showModal), old(editingNote), Merge(old(formData), a.fields))
      ensures a.FetchPending? ==>
                (notes, loading, showModal, editingNote, formData) ==
                (old(notes), true, old(showModal), old(editingNote), old(formData))
      ensures a.FetchFulfilled? ==>
                (notes, loading, showModal, editingNote, formData) ==
                (a.notes, false, old(showModal), old(editingNote), old(formData))
      ensures a.CreateFulfilled? ==>
                (notes, loading, showModal, editingNote, formData) ==
                ([a.note] + old(notes), old(loading), false, old(editingNote), EmptyForm())
      ensures a.UpdateFulfilled? ==>
                (notes, loading, showModal, editingNote, formData) ==
                (ReplaceFirst(old(notes), a.note), old(loading), false, None, EmptyForm())
      ensures a.DeleteFulfilled? ==>
                (notes, loading, showModal, editingNote, formData) ==
                (RemoveId(old(notes), a.noteId), old(loading), old(showModal), old(editingNote), old(formData))
    {
      match a
      case OpenModal(editing) => OpenModal(editing);
      case CloseModal => CloseModal();
      case UpdateFormData(fields) => UpdateFormData(fields);
      case FetchPending => FetchPending();
      case FetchFulfilled(payload) => FetchFulfilled(payload);
      case CreateFulfilled(note) => CreateFulfilled(note);
      case UpdateFulfilled(note) => UpdateFulfilled(note);
      case DeleteFulfilled(noteId) => DeleteFulfilled(noteId);
      case _ =>
    }
  }
}
