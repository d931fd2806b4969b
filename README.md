# Notes client state slices, modelled in Dafny

This project models the Redux Toolkit reducers of a notes-taking web client:
two notes slices and two auth slices. Each slice keeps its state in a small
object that its reducer cases update field by field. The async thunks call the
HTTP API and settle with a fulfilled or rejected action.

The repository holds two divergent copies of each slice. They are modelled
separately, each in its own module:

- `NotesSlice` (`frontend/app/store/slices/notesSlice.js`) caches `items` with
  an `isLoading` flag and an `error` value. Fetch replaces the cache, create
  appends, update replaces the first note whose `note_id` matches, and delete
  filters out every note with the id. Its thunks reject with the response body
  or a fixed message.
- `NotesModalSlice` (`frontend/app/store/notesSlice.js`) caches `notes` with a
  `loading` flag. Create prepends. It also holds the editor state:
  `showModal`, `editingNote` and a `formData` that `updateFormData` merges into.
- `AuthSlice` (`frontend/app/store/slices/authSlice.js`) tracks `user`,
  `token`, `isLoading` and `error` through login and signup, plus the
  synchronous `logout` and `clearError` actions. Its signup thunk picks the
  rejection value through a four-step `||` chain.
- `CookieAuthSlice` (`frontend/app/store/authSlice.js`) tracks `user`,
  `isAuthenticated`, `loading` and `error`. Its login and register thunks
  write the session into the token store before they return. Its initial
  state and `checkAuth` read the store back.

Shared modules:

- `Api` holds JavaScript values and their truthiness, and the `?.` reads of a
  thrown HTTP error. It also gives the `||` fallback chain a reference meaning,
  `FirstPresent`: the first present candidate, otherwise the fallback.
- `NoteList` holds the note list operations both notes slices use: `findIndex`
  by `note_id` (`IndexOfId`, and the linear search `FindIndex`), the update
  splice (`ReplaceFirst`) and the delete filter (`RemoveId`). Lemmas cover
  length, id order, relative order, idempotence, distinct ids and the
  create/delete round trip.
- `TokenStore` is the cookie jar of `frontend/app/lib/auth.js`, seen as a map
  from cookie names to cookie text. `setTokens` stores `String(v)` of each
  token (`CookieText`). `setUser` stores the user's JSON text, represented by
  the value it encodes, and `getUser` parses it back (`JsonRoundTrip`).
- `Scenarios` drives the slices through three client runs that use only their
  contracts.

Each slice is a class `State` whose fields are the slice's state. Each reducer
case is a method that names in its `modifies` clause exactly the fields the
case assigns, so every other field is provably untouched. `Reduce` routes an
action to its case and states the whole new state for every action type. An
action type without a case leaves the state unchanged.

Note ids are strings. The reducers compare them with `===`, which is value
equality on strings. A thunk's HTTP call is a parameter: a `Settled` value
that is either the resolved body or the thrown error.

Where the code and the design intent differ, the model follows the code:

- The cookie slice's `logoutUser` never clears the token store. A fulfilled
  logout signs the slice out, but the next `checkAuth` reads the stored access
  token and signs it back in. `Scenarios.LoginLogoutCheckAuth` shows this.
  The code as written never reaches a fulfilled logout, though: the API
  object it calls has no `logout` method (see "## Left out"). The run exists
  only because a thunk's call is modelled by how it settles.
- The token store keeps text, so a token that is not a string still
  authenticates. An `undefined`, `null`, `false` or `0` access token is stored
  as "undefined", "null", "false" or "0", which `isAuthenticated` reads as
  present (`TokenStore.NonStringTokenAuthenticates`). An `undefined` user is
  stored as the text "undefined", on which `getUser` throws. `checkAuth` then
  throws before it assigns anything, and the initial state cannot be built.
  `Scenarios.LoginWithoutTokens` runs a login whose response has neither
  tokens nor user.
- In the `store/slices` notes slice, a failed create, update or delete has no
  reducer case and records no error. Only fetch reports failures.
- In the `store` notes slice no thunk failure has a case, so a failed fetch
  leaves `loading` set.

## Model

| member | source | states |
|---|---|---|
| Api.FirstPresent | frontend/app/store/slices/authSlice.js:25-30 | the value of a fallback chain is the first present candidate, with every earlier one absent, or else the fallback with all candidates absent |
| Api.FirstPresentCons | frontend/app/store/slices/authSlice.js:25-30 | a chain whose head is present evaluates to its head, otherwise to the rest of the chain, so an or-chain is FirstPresent |
| Api.RejectValue | frontend/app/store/slices/notesSlice.js:12 | the fallback rejection value is the response body when present, else the fallback; it is present whenever the fallback is |
| NoteList.Ids | frontend/app/store/slices/notesSlice.js:86 | the id sequence has one entry per cached note, the k-th being the k-th note's `note_id` |
| NoteList.IndexOfId | frontend/app/store/slices/notesSlice.js:86 | `findIndex` gives -1 exactly when no note has the id; otherwise a position whose note has the id, with no earlier note having it |
| NoteList.FindIndex | frontend/app/store/notesSlice.js:64 | the linear search returns the same index as `findIndex`'s definition |
| NoteList.RemoveId | frontend/app/store/slices/notesSlice.js:93 | the filter never grows the list and leaves no note with the id |
| NoteList.ReplaceFirstAt | frontend/app/store/slices/notesSlice.js:86-89 | assigning the payload at the index `findIndex` returns, if not -1, is the reference update ReplaceFirst; with no match the list is unchanged |
| NoteList.ReplaceFirstPreservesIds | frontend/app/store/slices/notesSlice.js:85-90 | an update keeps the length and the whole id sequence |
| NoteList.ReplaceFirstStoresPayload | frontend/app/store/notesSlice.js:63-67 | the payload lands at the first matching position when the id is cached, every other position keeps its note, and with no match nothing changes |
| NoteList.ReplaceFirstIdempotent | frontend/app/store/slices/notesSlice.js:85-90 | applying the same update twice equals applying it once |
| NoteList.ReplaceFirstPreservesDistinct | frontend/app/store/notesSlice.js:63-67 | pairwise distinct ids stay distinct after an update |
| NoteList.RemoveIdIsSubsequence | frontend/app/store/slices/notesSlice.js:92-94 | the notes that survive a delete keep their relative order |
| NoteList.RemoveIdCounts | frontend/app/store/slices/notesSlice.js:92-94 | a delete keeps every occurrence of each note with another id and no note with the id |
| NoteList.RemoveIdAbsent | frontend/app/store/notesSlice.js:72-74 | deleting an id that no cached note carries changes nothing |
| NoteList.RemoveIdIdempotent | frontend/app/store/slices/notesSlice.js:92-94 | applying the same delete twice equals applying it once |
| NoteList.RemoveIdConcat | frontend/app/store/slices/notesSlice.js:93 | filtering a concatenation filters each part |
| NoteList.RemoveIdLength | frontend/app/store/slices/notesSlice.js:92-94 | the length drops by exactly the number of cached notes with the id |
| NoteList.RemoveIdRemovesOne | frontend/app/store/notesSlice.js:72-74 | with distinct ids, deleting a cached id removes exactly one entry; deleting an uncached one removes none |
| NoteList.RemoveIdPreservesDistinct | frontend/app/store/slices/notesSlice.js:92-94 | pairwise distinct ids stay distinct after a delete |
| NoteList.RemoveAfterReplaceFirst | frontend/app/store/notesSlice.js:63-74 | updating a note and then deleting its id equals only deleting it |
| NoteList.AppendThenRemove | frontend/app/store/slices/notesSlice.js:81-83 | appending a note with an uncached id and then deleting that id restores the list |
| NoteList.PrependThenRemove | frontend/app/store/notesSlice.js:58-59 | prepending a note with an uncached id and then deleting that id restores the list |
| NoteList.AddFreshPreservesDistinct | frontend/app/store/notesSlice.js:58-59 | adding a note with an uncached id at either end keeps ids distinct |
| NotesSlice.FetchNotes | frontend/app/store/slices/notesSlice.js:5-15 | fulfilled with exactly the response notes iff the call resolves; otherwise rejected with the response body or 'Failed to fetch notes', never an absent value |
| NotesSlice.CreateNote | frontend/app/store/slices/notesSlice.js:17-27 | fulfilled with the created note iff the call resolves; otherwise rejected with the body or 'Failed to create note', never absent |
| NotesSlice.UpdateNote | frontend/app/store/slices/notesSlice.js:29-39 | fulfilled with the returned note iff the call resolves; otherwise rejected with the body or 'Failed to update note', never absent |
| NotesSlice.DeleteNote | frontend/app/store/slices/notesSlice.js:41-51 | fulfilled with the requested id, not the response, iff the call resolves; otherwise rejected with the body or 'Failed to delete note' |
| NotesSlice.State.constructor | frontend/app/store/slices/notesSlice.js:55-59 | the initial state has no notes, is not loading and has no error |
| NotesSlice.State.ClearError | frontend/app/store/slices/notesSlice.js:61-63 | only `error` changes, to null |
| NotesSlice.State.FetchPending | frontend/app/store/slices/notesSlice.js:68-71 | loading with error null; `items` untouched |
| NotesSlice.State.FetchFulfilled | frontend/app/store/slices/notesSlice.js:72-75 | `items` becomes exactly the payload in order, loading ends, `error` untouched |
| NotesSlice.State.FetchRejected | frontend/app/store/slices/notesSlice.js:76-79 | loading ends and `error` becomes the payload; `items` untouched |
| NotesSlice.State.CreateFulfilled | frontend/app/store/slices/notesSlice.js:81-83 | the payload is appended: one longer, every earlier note at its old position; loading and error untouched |
| NotesSlice.State.UpdateFulfilled | frontend/app/store/slices/notesSlice.js:85-90 | `items` becomes ReplaceFirst of the old list, with the id sequence preserved; loading and error untouched |
| NotesSlice.State.DeleteFulfilled | frontend/app/store/slices/notesSlice.js:92-94 | `items` becomes the filter of the old list and holds no note with the id; loading and error untouched |
| NotesSlice.State.Reduce | frontend/app/store/slices/notesSlice.js:53-96 | the new state for every action type; pending and rejected create/update/delete leave the state unchanged |
| NotesModalSlice.EmptyForm | frontend/app/store/notesSlice.js:26 | the blank form has exactly the title and content fields, both empty |
| NotesModalSlice.FormOf | frontend/app/store/notesSlice.js:35-37 | a note's form has exactly the title and content fields, holding the note's title and content |
| NotesModalSlice.Merge | frontend/app/store/notesSlice.js:45-47 | right-biased merge: payload fields override, other form fields are kept, no other field appears |
| NotesModalSlice.MergeNothing | frontend/app/store/notesSlice.js:45-47 | an empty payload leaves the form unchanged |
| NotesModalSlice.MergeIdempotent | frontend/app/store/notesSlice.js:45-47 | merging the same payload twice equals merging it once |
| NotesModalSlice.FetchNotes | frontend/app/store/notesSlice.js:4-6 | fulfilled with exactly the returned notes iff the call resolves; otherwise rejected without a payload |
| NotesModalSlice.CreateNote | frontend/app/store/notesSlice.js:8-10 | fulfilled with the created note iff the call resolves; otherwise rejected without a payload |
| NotesModalSlice.UpdateNote | frontend/app/store/notesSlice.js:12-14 | fulfilled with the returned note iff the call resolves; otherwise rejected without a payload |
| NotesModalSlice.DeleteNote | frontend/app/store/notesSlice.js:16-19 | fulfilled with the requested id iff the call resolves; otherwise rejected without a payload |
| NotesModalSlice.State.constructor | frontend/app/store/notesSlice.js:21-27 | the initial state has no notes, is not loading, and the editor is closed |
| NotesModalSlice.State.OpenModal | frontend/app/store/notesSlice.js:33-39 | shows the editor; with a note it edits that note and the form holds exactly its title and content; without one it edits nothing and the form is blank; notes and loading untouched |
| NotesModalSlice.State.CloseModal | frontend/app/store/notesSlice.js:40-44 | the editor returns to its initial state with notes and loading untouched; closing an already closed editor changes nothing |
| NotesModalSlice.State.UpdateFormData | frontend/app/store/notesSlice.js:45-47 | the form becomes Merge of the old form and the payload; nothing else changes |
| NotesModalSlice.State.FetchPending | frontend/app/store/notesSlice.js:51-53 | only `loading` changes, to true |
| NotesModalSlice.State.FetchFulfilled | frontend/app/store/notesSlice.js:54-57 | loading ends and `notes` becomes exactly the payload; editor untouched |
| NotesModalSlice.State.CreateFulfilled | frontend/app/store/notesSlice.js:58-62 | the payload is prepended at index 0 and old notes shift by one; the modal is hidden and the form blanked; `editingNote` and loading untouched |
| NotesModalSlice.State.UpdateFulfilled | frontend/app/store/notesSlice.js:63-71 | `notes` becomes ReplaceFirst of the old list with ids preserved, and the editor is closed |
| NotesModalSlice.State.DeleteFulfilled | frontend/app/store/notesSlice.js:72-74 | `notes` becomes the filter of the old list with no note of the id left; editor and loading untouched |
| NotesModalSlice.State.Reduce | frontend/app/store/notesSlice.js:29-76 | the new state for every action type; rejected thunks and pending create/update/delete change nothing, so a failed fetch leaves `loading` set |
| AuthSlice.LoginRejection | frontend/app/store/slices/authSlice.js:13 | the response body when present, else 'Login failed'; never absent |
| AuthSlice.SignupRejection | frontend/app/store/slices/authSlice.js:25-30 | the first present of the body's `error` field, the body and the JavaScript message, else the fixed default; never absent |
| AuthSlice.LoginUser | frontend/app/store/slices/authSlice.js:6-16 | fulfilled with the response body iff the call resolves, else rejected with LoginRejection |
| AuthSlice.SignupUser | frontend/app/store/slices/authSlice.js:18-33 | fulfilled with the response body iff the call resolves, else rejected with SignupRejection |
| AuthSlice.State.constructor | frontend/app/store/slices/authSlice.js:37-42 | the initial state has no user, no token, is not loading and has no error |
| AuthSlice.State.Logout | frontend/app/store/slices/authSlice.js:44-48 | user, token and error become null; `isLoading` untouched |
| AuthSlice.State.ClearError | frontend/app/store/slices/authSlice.js:49-51 | only `error` changes, to null |
| AuthSlice.State.Pending | frontend/app/store/slices/authSlice.js:56-59 | loading with error null; user and token untouched (signup pending at lines 70-73 is the same case) |
| AuthSlice.State.Fulfilled | frontend/app/store/slices/authSlice.js:60-64 | loading ends, user is the payload's user and token its access token; `error` untouched (signup at 74-78 alike) |
| AuthSlice.State.Rejected | frontend/app/store/slices/authSlice.js:65-68 | loading ends and `error` becomes the payload; user and token untouched (signup at 79-82 alike) |
| AuthSlice.State.Reduce | frontend/app/store/slices/authSlice.js:43-83 | the new state for each of the eight action types, login and signup alike |
| TokenStore.CookieText | frontend/app/lib/auth.js:9-10 | the text a cookie keeps for a value: a string keeps its own text; every other non-array value, `undefined`, `null`, `false` and `0` included, has non-empty text; an empty array has empty text |
| TokenStore.JsonRoundTripKeepsSafe | frontend/app/lib/auth.js:27-34 | a user with no `undefined` inside comes back from `JSON.parse(JSON.stringify(user))` unchanged |
| TokenStore.JsonRoundTripIsSafe | frontend/app/lib/auth.js:27-34 | what comes back from the JSON round trip of a defined value has no `undefined` inside |
| TokenStore.JsonRoundTripIdempotent | frontend/app/lib/auth.js:27-34 | storing a user that was read back stores the same user again |
| TokenStore.UserCookie | frontend/app/lib/auth.js:27-29 | `setUser` writes the user's JSON text; for `undefined` it writes the text "undefined", and only then |
| TokenStore.StoredUser | frontend/app/lib/auth.js:31-34 | null when no user cookie exists or it is empty; the JSON round trip of the stored user for JSON text; a parse failure (`None`) for the text "undefined", and only for non-empty plain text |
| TokenStore.HasAccessToken | frontend/app/lib/auth.js:36-38 | as `!!getAccessToken()` (lines 13-15): true exactly when an access-token cookie exists and its text is not empty |
| TokenStore.WithSession | frontend/app/store/authSlice.js:8-9 | after storing a login response the jar holds the text of both tokens; it is authenticated iff the access token's text is non-empty; the user reads back through the JSON round trip, or throws when the response has none; other cookies are kept |
| TokenStore.NonStringTokenAuthenticates | frontend/app/lib/auth.js:8-11 | a missing, null, boolean or numeric access token still leaves the jar authenticated |
| TokenStore.SessionUserReadsBack | frontend/app/lib/auth.js:27-34 | a response user without `undefined` inside is read back exactly |
| TokenStore.CookieJar.SetTokens | frontend/app/lib/auth.js:8-11 | stores the text of the access and refresh tokens under their names and nothing else |
| TokenStore.CookieJar.SetUser | frontend/app/lib/auth.js:27-29 | stores the user's cookie (`UserCookie`) under its name and nothing else |
| CookieAuthSlice.LoginRejection | frontend/app/store/authSlice.js:12 | the response body when present, else `{ message: 'Login failed' }`; never absent |
| CookieAuthSlice.RegisterRejection | frontend/app/store/authSlice.js:23 | the response body when present, else `{ message: 'Registration failed' }`; never absent |
| CookieAuthSlice.LoginUser | frontend/app/store/authSlice.js:5-14 | on success the jar holds the response's tokens and user before the fulfilled action is returned; on failure the jar is untouched and the action rejects with LoginRejection |
| CookieAuthSlice.RegisterUser | frontend/app/store/authSlice.js:16-25 | as LoginUser, with the register actions and RegisterRejection |
| CookieAuthSlice.LogoutUser | frontend/app/store/authSlice.js:27-29 | fulfilled iff the backend call resolves, else rejected without a payload; no jar is involved |
| CookieAuthSlice.State.constructor | frontend/app/store/authSlice.js:31-36 | the initial user and authentication are read back from the jar; not loading, no error; requires a user `getUser` can parse, since otherwise the module fails to load |
| CookieAuthSlice.State.ClearError | frontend/app/store/authSlice.js:42-44 | only `error` changes, to null |
| CookieAuthSlice.State.CheckAuth | frontend/app/store/authSlice.js:45-48 | user and authentication read back through StoredUser and HasAccessToken; when `getUser` throws nothing changes; loading and error untouched |
| CookieAuthSlice.State.Pending | frontend/app/store/authSlice.js:53-56 | loading with error null; user and authentication untouched (register at 68-71 alike) |
| CookieAuthSlice.State.Fulfilled | frontend/app/store/authSlice.js:57-62 | loading ends, authenticated as the payload's user, error null (register at 72-77 alike) |
| CookieAuthSlice.State.Rejected | frontend/app/store/authSlice.js:63-66 | loading ends and `error` becomes the payload; user and authentication untouched (register at 78-81 alike) |
| CookieAuthSlice.State.LogoutFulfilled | frontend/app/store/authSlice.js:83-87 | signed out, user and error null; `loading` untouched |
| CookieAuthSlice.State.Reduce | frontend/app/store/authSlice.js:38-88 | the new state for every action type; only the fulfilled logout signs out; pending or rejected logout, and a `checkAuth` whose `getUser` throws, change nothing |

## Left out

- The HTTP layer is out of scope: the axios instances, the bearer-token request interceptor, the 401 refresh-and-retry interceptor and the API facades (`frontend/app/lib/api.js`, `frontend/lib/api.js`). A thunk's call is modelled only by how it settles, resolved or thrown, so the model also reaches outcomes the wiring below makes impossible.
- Wiring faults between the `store` slices and `frontend/app/lib/api.js` that the settled-outcome abstraction hides:
  - `frontend/app/store/authSlice.js` and `frontend/app/store/notesSlice.js` import `authApi` and `notesApi`, but the module exports `authAPI` and `notesAPI`.
  - Even under the exported names, `authAPI` has only `login(user_email, password)` and `signup`. So `authApi.register` (`frontend/app/store/authSlice.js:18`) and `authApi.logout` (`frontend/app/store/authSlice.js:28`) do not exist. `logoutUser` can therefore never fulfil, and `registerUser` never succeeds.
  - `authApi.login(credentials)` (`frontend/app/store/authSlice.js:7`) passes one object where `login` takes an email and a password.
  - `notesAPI` has `getNotes`, not `getAllNotes`, so `notesApi.getAllNotes` (`frontend/app/store/notesSlice.js:5`) does not exist either.
  - `response.access` is read from an axios response rather than from its body.
- Redux Toolkit itself is not modelled: action creation, Immer drafts, and the `action.error` field of a rejected action. Dispatch order and the interleaving of concurrent thunks are not modelled either.
- TokenStore.Cookie: JSON text is represented by the value it encodes, so its key order and number formatting are not modelled. Plain cookie text that this code did not write is not parsed as JSON: `TokenStore.StoredUser` reads any non-empty plain text as a parse failure. The only plain text `setUser` writes is "undefined", on which the failure is exact.
- TokenStore.CookieText: js-cookie's URI encoding is taken as a faithful round trip of the text. Cookie expiry is not modelled.
- TokenStore: `getRefreshToken` and `removeTokens` are not modelled. No core reducer or thunk calls them.
- CookieAuthSlice.State.constructor requires a stored user that `getUser` can parse. Otherwise the initial state throws while the module loads, and no store exists to model.
- Api.JsValue: numbers are integers, so NaN and floating point are not modelled. Object identity is not modelled either: `===` is value equality here.
- NotesModalSlice.Merge: the form is a map, so the key order that object spread preserves is not modelled. Form values are strings, as every caller passes.
- AuthSlice.State.Fulfilled and CookieAuthSlice.State.Fulfilled take a response record with `user`, `access` and `refresh`. A null or undefined payload would make the reducer throw; that case is not modelled. A string, number or boolean payload reads `user`, `access` and `refresh` as undefined, which the record covers as all three `Undefined`.
- Pages, components, hooks, the store wiring, the Tailwind configuration and the Django backend are not part of this model.
