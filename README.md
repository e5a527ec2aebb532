# Flute Notes song editor: a Dafny model

Flute Notes is a single-page app for flute players. It keeps a private library of songs; each song is
an ordered list of lines, and each line pairs lyrics with flute notation. This project models the
component `FluteNotesApp` (app/page.tsx), which has two parts.

- **The edit buffer.** This is the working title plus the list of `SongLine`s. Its operations
  append a blank line, set one field of the lines with a given id, and remove lines by id. A
  removal is refused while only one line is left. At save time a filter drops every fully blank
  line.
- **The view controller.** This is the React state: the library list, the view mode
  (`library | new | edit`), the song being edited, the signed-in user, and the `loading`,
  `saving` and `error` flags. Each event handler moves this state. The render order is loading,
  then error, then library, then editor.

Modules:

- `Wrappers` holds `Option`.
- `Seqs` holds the order-preserving `Filter` of `Array.prototype.filter`, with its subsequence and
  multiplicity facts.
- `Text` holds JavaScript's `trim` and the blank test `!s.trim()`.
- `EditBuffer` holds the line operations as pure functions on `seq<SongLine>`, and the lemmas
  about them.
- `SongRecord` holds the stored `Song`, the record `saveSong` builds, and the store requests.
- `View` holds the render selection.
- `App` holds the class `FluteNotesApp`, whose fields are the component's state and whose methods
  are its handlers.

The store, the session service and the clock are not modelled. A handler that calls the store
returns the request it would send (`SaveRequest`, `DeleteRequest`). It takes the store's answer as
parameters:

- `storeOk` says whether the insert, update or delete succeeded.
- `reload` is the list that `loadSongs` receives. `None` means that query failed.

`Date.now().toString()` is the parameter `freshId`. The two `new Date().toISOString()` readings of `saveSong` are the parameters `createdNow` and `updatedNow`.
A redirect to the login page is a returned `bool`.

The "never zero lines" guarantee needs an assumption the code does not enforce: the line ids in
the buffer are distinct. `removeLine` drops every line with the given id. `WellFormed` carries that
assumption, and `RemoveLineEmptiesDuplicateIds` shows what goes wrong without it.

## Model

| member | source | states |
|---|---|---|
| Seqs.Filter | app/page.tsx:115 | The result is an order-preserving subsequence of the input, no longer than it, and every kept element passes the test |
| Seqs.FilterCounts | app/page.tsx:115 | Every element that passes is kept exactly as often as it occurs in the input, and no other element is kept |
| Seqs.FilterKeepsAll | app/page.tsx:127 | A sequence whose every element passes is returned unchanged |
| Seqs.FilterIdempotent | app/page.tsx:127 | Filtering twice gives the same as filtering once |
| Seqs.FilterAppend | app/page.tsx:106 | Filtering `s + [x]` is filtering `s`, followed by `x` when `x` passes |
| Text.TrimStartSpec | app/page.tsx:120 | The start trim keeps a suffix, drops only whitespace, and what it keeps does not start with whitespace |
| Text.TrimEndSpec | app/page.tsx:120 | The end trim keeps a prefix, drops only whitespace, and what it keeps does not end with whitespace |
| Text.TrimSpec | app/page.tsx:120 | `trim` keeps a contiguous part of the string that neither starts nor ends with whitespace, and everything around that part is whitespace |
| Text.BlankIffAllWhitespace | app/page.tsx:127 | `!s.trim()` holds exactly when every character of `s` is whitespace |
| Text.NotBlankOnLeadingText | app/page.tsx:127 | A string whose first character is not whitespace is not blank |
| EditBuffer.AddNewLine | app/page.tsx:100-107 | The line count rises by exactly one, the earlier lines are unchanged and in the same order, and the new last line has the fresh id, empty lyrics and empty notes |
| EditBuffer.UpdateLine | app/page.tsx:109-111 | The length is kept and every id is kept. Lines with another id are unchanged. On lines with that id, the chosen field holds the value and the other field is unchanged (helper `SetField`) |
| EditBuffer.RemoveLine | app/page.tsx:113-117 | With one line or none the buffer is unchanged. Otherwise the result is a subsequence of the buffer in which no line has that id (helper `WithoutId`, the filter of line 115) |
| EditBuffer.RemoveLineCounts | app/page.tsx:115 | A removal over more than one line keeps each line with another id exactly as often as it occurred. With `RemoveLine` this pins the result to the full order-preserving subsequence |
| EditBuffer.SaveableLines | app/page.tsx:127 | The saved lines are a subsequence of the buffer and contain no line whose lyrics and notes are both blank (helper `IsBlankLine`) |
| EditBuffer.SaveableLinesCounts | app/page.tsx:127 | Every line that is not blank is saved exactly as often as it appears in the buffer, and no blank line is saved |
| EditBuffer.WithoutIdDistinct | app/page.tsx:115 | With distinct ids, the id filter removes exactly one line when the id is present and none otherwise, and the ids stay distinct |
| EditBuffer.AddNewLineKeepsWellFormed | app/page.tsx:100-107 | Appending a line with an unused id keeps at least one line and distinct ids |
| EditBuffer.UpdateLineKeepsWellFormed | app/page.tsx:109-111 | Updating a field keeps the sequence of ids, and so keeps the buffer invariant |
| EditBuffer.RemoveLineKeepsWellFormed | app/page.tsx:113-117 | With distinct ids, removal loses at most one line and never empties the buffer |
| EditBuffer.RemoveLineEmptiesDuplicateIds | app/page.tsx:115 | Two lines that share an id are both removed, leaving an empty buffer, which is why the invariant needs distinct ids |
| EditBuffer.RunKeepsWellFormed | app/page.tsx:100-117 | Any sequence of add, update and remove, where each added line gets an unused id, keeps at least one line and distinct ids |
| EditBuffer.InitialLinesWellFormed | app/page.tsx:34 | The initial buffer `[{id: "1"}]` satisfies the buffer invariant |
| EditBuffer.InitialLinesNotSaved | app/page.tsx:143 | The reset buffer saves no line, the same as an empty buffer |
| EditBuffer.AddedLineNotSaved | app/page.tsx:127 | A line appended by `addNewLine` is never persisted: the saved lines are the same before and after |
| EditBuffer.SaveableLinesKeepsNonBlank | app/page.tsx:127 | A buffer with no blank line is saved as it is; that filtering twice is filtering once in general is `Seqs.FilterIdempotent` |
| EditBuffer.SaveableLinesExample | app/page.tsx:127 | `[{lyrics: "Radha", notes: ""}, {lyrics: "", notes: ""}]` saves only its first line |
| SongRecord.BuildRecord | app/page.tsx:124-131 | The record has the untrimmed title, the current user as owner and the second clock reading as modification time. Its lines are exactly the save filter of the buffer, so a subsequence with no blank line (by `EditBuffer.SaveableLinesCounts`, every non-blank line kept as often as it occurs). When editing, it keeps the edited song's id and creation time; an empty one falls back to the fresh value, as the `||` of lines 125 and 129 does (helper `OrElse`). A new song gets the fresh id and the first clock reading as creation time |
| SongRecord.SaveRequestFor | app/page.tsx:133-139 | An edit becomes an update scoped by the edited song's id and the user's id; a new song becomes an insert; both carry the record |
| SongRecord.EditorLines | app/page.tsx:157 | The editor opens with the song's own lines when it has any, and with the single line `{id: "1", lyrics: "", fluteNotes: ""}` when it has none. Saving them persists the same lines as the song's |
| SongRecord.EditThenSaveRoundTrip | app/page.tsx:124-131 | Take a song with three properties: no blank line, a non-empty id and creation time, and saved by its own owner `userId`. Opening it and saving it unchanged writes back the same id, title, lines, owner and creation time. Only the modification time is new, whatever the other clock readings are. Every record `saveSong` writes has this shape: it has no blank line (`BuildRecord`), and its id and creation time come from clock readings, which are never empty. The library only lists the user's own songs (app/page.tsx:85) |
| SongRecord.SavedRecordReopens | app/page.tsx:157 | Reopening any record that `saveSong` built and filtering its lines again gives the record's lines |
| View.Render | app/page.tsx:188-220 | Loading comes first; then a non-empty error (helper `HasError`, the truthiness test of line 199); then the library in `library` mode; the editor otherwise. The editor's heading says "Edit" exactly in `edit` mode. Its save control is enabled exactly for a non-blank title while no save is in flight (line 310). Its remove controls show exactly when more than one line exists (line 352) |
| View.ErrorHidesView | app/page.tsx:199-218 | Once loading is over, a set error renders the same error screen whatever the view, title, saving flag and line count |
| App.FluteNotesApp.constructor | app/page.tsx:30-38 | Initial state: no songs, library mode, no edit target, empty title, one empty line with id "1", no user, loading, not saving, no error |
| App.FluteNotesApp.LoadSongs | app/page.tsx:80-94 | A successful query replaces the song list; a failing one keeps it and records the load error |
| App.FluteNotesApp.Initialize | app/page.tsx:43-61 | With no user: redirect, nothing changed. A failing lookup: connection error, loading over. A user: recorded, library loaded as by `LoadSongs`, loading over |
| App.FluteNotesApp.AuthStateChanged | app/page.tsx:65-72 | A sign-out or a missing session redirects and changes nothing. Otherwise the session's user is recorded and the library reloaded |
| App.FluteNotesApp.EditTitle | app/page.tsx:329 | The title becomes the input's value and nothing else changes |
| App.FluteNotesApp.AddNewLine | app/page.tsx:100-107 | The buffer becomes `EditBuffer.AddNewLine` of the old buffer. The buffer invariant is kept when the fresh id is unused |
| App.FluteNotesApp.UpdateLine | app/page.tsx:109-111 | The buffer becomes `EditBuffer.UpdateLine` of the old buffer, and the buffer invariant is kept |
| App.FluteNotesApp.RemoveLine | app/page.tsx:113-117 | The buffer becomes `EditBuffer.RemoveLine` of the old buffer, and the buffer invariant is kept |
| App.FluteNotesApp.SaveSong | app/page.tsx:119-152 | With no user or a blank title, nothing changes and no request is issued. Otherwise the issued request is `SaveRequestFor` of the record built from the old buffer, `saving` is false afterwards, and user and loading are unchanged. Success and failure are as in `SaveAnswered`, and on failure the error screen renders |
| App.FluteNotesApp.SaveAnswered | app/page.tsx:140-151 | On success: the library is reloaded, title "", lines `[{id: "1"}]`, no edit target, library mode. On failure: title, lines, target, view and songs are unchanged, the save error is set, and the error screen renders once loading is over |
| App.FluteNotesApp.EditSong | app/page.tsx:154-159 | The edit target is the song, the title is its title, the lines are `EditorLines` of it, and the mode is `edit`. The buffer invariant holds when the song's line ids are distinct |
| App.FluteNotesApp.DeleteSong | app/page.tsx:161-172 | With no user, nothing changes and no request is issued. Otherwise a delete scoped by song id and user id is issued. The song list changes only through the reload after success; a failure keeps it and sets the delete error |
| App.FluteNotesApp.StartNewSong | app/page.tsx:174-179 | No edit target, empty title, one empty line with id "1", `new` mode, buffer invariant holds |
| App.FluteNotesApp.GoBackToLibrary | app/page.tsx:181-186 | The same reset buffer and no edit target as `StartNewSong`, but `library` mode |

## Left out

- Supabase calls are not modelled: `auth.getUser`, `onAuthStateChange`, `signOut` and the `songs` queries. They are foreign network calls; only their outcome is modelled, as the parameters above.
- The `updated_at`-descending order of the reloaded list is a promise of the store, not of the client. So is the absence of a deleted id from the next reload. Neither is modelled.
- `handleLogout` only calls `signOut`. It is left out; a sign-out reaches the model through `AuthStateChanged`.
- The auth subscription is never removed. Its unsubscribe is the result of the async `initializeApp` (app/page.tsx:74), and the effect discards that promise (app/page.tsx:77-78), so React gets no cleanup. When no user is found, the `return` at app/page.tsx:51 skips the subscription altogether. The subscription itself, the router and the effect's scheduling are not modelled: they are lifecycle plumbing, and a redirect is only a returned flag.
- In the session callback, a session that has no `user` field does nothing. The model's session is a user id or none, so that case is not modelled.
- Only the user's id is kept. The displayed email is presentation.
- Text: strings are sequences of Unicode scalar values, while JavaScript strings are UTF-16 code units, so a lone surrogate cannot be represented. Every character `trim` removes lies in the Basic Multilingual Plane, so trimming and blankness are the same for every representable string.
- Clock readings are parameters. So it is not modelled that a new modification time exceeds the old one.
- SaveSong and DeleteSong run atomically. While the store call is pending, the code lets other handlers run (navigation, edits). The callbacks also capture the state of their moment. These interleavings and stale closures are not modelled, so `saving` is true only inside the call.
- `saveSong` itself does not check `saving`. Only the disabled save control (app/page.tsx:310) prevents a second save while one is in flight. The model follows the code: `SaveSong` has no such guard, and `View.Render` states the control's enabling rule.
- The code does not show a save or delete failure inline. It sets `error`, and a set error replaces the whole screen (app/page.tsx:199-218). The model follows the code. `error` is never cleared by any handler; only a page reload clears it, and that is not modelled. A consequence: after a failed save the buffer is still in state (`SaveAnswered`), but the error screen hides it whatever the view (`View.ErrorHidesView`), and that screen's only control is `window.location.reload()` (app/page.tsx:211), which discards the buffer. So a failed save does lose the user's unsaved text.
- JSX markup, styling, `window.location.reload()`, `toLocaleDateString` and `console.error` are not modelled. They are presentation and diagnostics.
- app/auth/check-email/page.tsx, app/auth/auth-code-error/page.tsx and app/layout.tsx are not part of this model. They are I/O plumbing and static markup.
