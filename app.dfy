/**
 * The song editor component: the React state of `FluteNotesApp` as the fields of a class, and
 * each event handler as a method. Store calls are not executed; a handler that calls the store
 * returns the request it would send and takes the store's answer as parameters (`storeOk`, and
 * `reload` for the list `loadSongs` receives, `None` when that query fails). Clock readings
 * (`freshId` for `Date.now()`, `createdNow` and `updatedNow` for the two ISO timestamps) are
 * parameters as well.
 */
module App {
  import opened Wrappers
  import opened Text
  import EditBuffer
  import opened SongRecord
  import opened View

  type UserId = string

  /** What the startup session lookup yields: a failure, no signed-in user, or a user. */
  datatype SessionLookup = LookupFailed | NoUser | SignedIn(userId: UserId)

  const ConnectError := "Failed to connect to database. Please check your Supabase configuration."
  const LoadError := "Failed to load songs from database."
  const SaveError := "Failed to save song to database."
  const DeleteError := "Failed to delete song from database."

  class FluteNotesApp {
    var songs: seq<Song>
    var view: ViewMode
    var editing: Option<Song>
    var title: string
    var lines: seq<EditBuffer.SongLine>
    var user: Option<UserId>
    var loading: bool
    var saving: bool
    var error: Option<string>

    /** The initial values of the component's state. */
    constructor ()
      ensures songs == [] && view == Library && editing == None && title == ""
      ensures lines == EditBuffer.InitialLines() && user == None
      ensures loading && !saving && error == None
      ensures BufferWellFormed()
    {
      songs := [];
      view := Library;
      editing := None;
      title := "";
      lines := EditBuffer.InitialLines();
      user := None;
      loading := true;
      saving := false;
      error := None;
    }

    /** At least one line, and line ids that tell the lines apart. */
    ghost predicate BufferWellFormed()
      reads this
    {
      EditBuffer.WellFormed(lines)
    }

    /** The screen the component renders in this state. */
    function CurrentScreen(): Screen
      reads this
    {
      Render(loading, error, view, title, saving, |lines|)
    }

    /** `loadSongs`: the listed songs replace the library, or the load error is recorded. */
    method LoadSongs(reload: Option<seq<Song>>)
      modifies this`songs, this`error
      ensures songs == (if reload.Some? then reload.value else old(songs))
      ensures error == (if reload.Some? then old(error) else Some(LoadError))
    {
      if reload.Some? {
        songs := reload.value;
      } else {
        error := Some(LoadError);
      }
    }

    /**
     * The startup lookup: without a user the component redirects and changes nothing; a failing
     * lookup shows the connection error; a user is recorded and the library loaded.
     */
    method Initialize(lookup: SessionLookup, reload: Option<seq<Song>>) returns (redirect: bool)
      modifies this`user, this`songs, this`error, this`loading
      ensures redirect <==> lookup.NoUser?
      ensures lookup.NoUser? ==> unchanged(this)
      ensures lookup.LookupFailed? ==>
                user == old(user) && songs == old(songs) && error == Some(ConnectError) && !loading
      ensures lookup.SignedIn? ==>
                user == Some(lookup.userId) && !loading
                && songs == (if reload.Some? then reload.value else old(songs))
                && error == (if reload.Some? then old(error) else Some(LoadError))
    {
      redirect := false;
      match lookup {
        case LookupFailed =>
          error := Some(ConnectError);
          loading := false;
        case NoUser =>
          redirect := true;
        case SignedIn(u) =>
          user := Some(u);
          LoadSongs(reload);
          loading := false;
      }
    }

    /** The session-change callback: a sign-out or a lost session redirects, a session reloads. */
    method AuthStateChanged(signedOut: bool, session: Option<UserId>, reload: Option<seq<Song>>)
      returns (redirect: bool)
      modifies this`user, this`songs, this`error
      ensures redirect <==> signedOut || session.None?
      ensures redirect ==> unchanged(this)
      ensures !redirect ==>
                user == session
                && songs == (if reload.Some? then reload.value else old(songs))
                && error == (if reload.Some? then old(error) else Some(LoadError))
    {
      redirect := signedOut || session.None?;
      if !redirect {
        user := session;
        LoadSongs(reload);
      }
    }

    /** The title input's change handler. */
    method EditTitle(value: string)
      modifies this`title
      ensures title == value
    {
      title := value;
    }

    /** Appends a blank line; `freshId` is the clock reading the source turns into its id. */
    method AddNewLine(freshId: string)
      modifies this`lines
      ensures lines == EditBuffer.AddNewLine(old(lines), freshId)
      ensures old(BufferWellFormed()) && freshId !in EditBuffer.Ids(old(lines)) ==> BufferWellFormed()
    {
      if BufferWellFormed() && freshId !in EditBuffer.Ids(lines) {
        EditBuffer.AddNewLineKeepsWellFormed(lines, freshId);
      }
      lines := EditBuffer.AddNewLine(lines, freshId);
    }

    /** Sets the chosen field of every line with the given id to `value`. */
    method UpdateLine(id: string, field: EditBuffer.Field, value: string)
      modifies this`lines
      ensures lines == EditBuffer.UpdateLine(old(lines), id, field, value)
      ensures old(BufferWellFormed()) ==> BufferWellFormed()
    {
      if BufferWellFormed() {
        EditBuffer.UpdateLineKeepsWellFormed(lines, id, field, value);
      }
      lines := EditBuffer.UpdateLine(lines, id, field, value);
    }

    /** Drops every line with the given id, unless only one line is left. */
    method RemoveLine(id: string)
      modifies this`lines
      ensures lines == EditBuffer.RemoveLine(old(lines), id)
      ensures old(BufferWellFormed()) ==> BufferWellFormed()
    {
      if BufferWellFormed() {
        EditBuffer.RemoveLineKeepsWellFormed(lines, id);
      }
      lines := EditBuffer.RemoveLine(lines, id);
    }

    /**
     * `saveSong`. With no user or a blank title nothing happens and no request is made. Otherwise
     * the record built from the buffer is inserted, or updated when a song is being edited, and
     * the store's answer is handled as `SaveAnswered` says. No save is in flight afterwards.
     */
    method SaveSong(freshId: string, createdNow: string, updatedNow: string, storeOk: bool, reload: Option<seq<Song>>)
      returns (request: Option<SaveRequest>)
      modifies this
      ensures request.None? <==> IsBlank(old(title)) || old(user).None?
      ensures request.None? ==> unchanged(this)
      ensures request.Some? ==>
                request.value == SaveRequestFor(old(editing),
                                                BuildRecord(old(editing), old(title), old(lines), old(user).value, freshId, createdNow, updatedNow),
                                                old(user).value)
      ensures request.Some? ==> !saving
      ensures user == old(user) && loading == old(loading)
      ensures request.Some? && storeOk ==>
                title == "" && lines == EditBuffer.InitialLines() && editing.None? && view == Library
                && songs == (if reload.Some? then reload.value else old(songs))
                && error == (if reload.Some? then old(error) else Some(LoadError))
                && BufferWellFormed()
      ensures request.Some? && !storeOk ==>
                title == old(title) && lines == old(lines) && editing == old(editing) && view == old(view)
                && songs == old(songs) && error == Some(SaveError)
      ensures request.Some? && !storeOk && !loading ==> CurrentScreen() == ErrorScreen(SaveError)
    {
      if IsBlank(title) || user.None? {
        request := None;
        return;
      }
      saving := true;
      var record := BuildRecord(editing, title, lines, user.value, freshId, createdNow, updatedNow);
      request := Some(SaveRequestFor(editing, record, user.value));
      SaveAnswered(storeOk, reload);
      saving := false;
    }

    /**
     * The part of `saveSong` after the write: on success the library is reloaded and the buffer
     * reset to a new, empty song in the library view; on failure the buffer, target and view are
     * kept and the save error is recorded, so the error screen shows.
     */
    method SaveAnswered(storeOk: bool, reload: Option<seq<Song>>)
      modifies this`songs, this`error, this`title, this`lines, this`editing, this`view
      ensures storeOk ==>
                title == "" && lines == EditBuffer.InitialLines() && editing.None? && view == Library
                && songs == (if reload.Some? then reload.value else old(songs))
                && error == (if reload.Some? then old(error) else Some(LoadError))
                && BufferWellFormed()
      ensures !storeOk ==>
                title == old(title) && lines == old(lines) && editing == old(editing) && view == old(view)
                && songs == old(songs) && error == Some(SaveError)
      ensures !storeOk && !loading ==> CurrentScreen() == ErrorScreen(SaveError)
    {
      if storeOk {
        LoadSongs(reload);
        title := "";
        lines := EditBuffer.InitialLines();
        editing := None;
        view := Library;
        EditBuffer.InitialLinesWellFormed();
      } else {
        error := Some(SaveError);
      }
    }

    /** `editSong`: the buffer is seeded from the song and the editor opens on it. */
    method EditSong(s: Song)
      modifies this`editing, this`title, this`lines, this`view
      ensures editing == Some(s) && title == s.title && view == Edit
      ensures lines == EditorLines(s)
      ensures EditBuffer.DistinctIds(s.lines) ==> BufferWellFormed()
    {
      editing := Some(s);
      title := s.title;
      lines := EditorLines(s);
      view := Edit;
      EditBuffer.InitialLinesWellFormed();
    }

    /**
     * `deleteSong`. With no user nothing happens and no request is made. Otherwise a delete
     * scoped by song id and owner is sent; the library changes only through the reload after the
     * store accepts it, and a refusal records the delete error.
     */
    method DeleteSong(id: string, storeOk: bool, reload: Option<seq<Song>>)
      returns (request: Option<DeleteRequest>)
      modifies this`songs, this`error
      ensures request.None? <==> old(user).None?
      ensures request.None? ==> unchanged(this)
      ensures request.Some? ==> request.value == Delete(id, user.value)
      ensures request.Some? && storeOk ==>
                songs == (if reload.Some? then reload.value else old(songs))
                && error == (if reload.Some? then old(error) else Some(LoadError))
      ensures request.Some? && !storeOk ==> songs == old(songs) && error == Some(DeleteError)
    {
      if user.None? {
        request := None;
        return;
      }
      request := Some(Delete(id, user.value));
      if storeOk {
        LoadSongs(reload);
      } else {
        error := Some(DeleteError);
      }
    }

    /** `startNewSong`: an empty buffer in the new-song editor. */
    method StartNewSong()
      modifies this`editing, this`title, this`lines, this`view
      ensures editing.None? && title == "" && lines == EditBuffer.InitialLines() && view == New
      ensures BufferWellFormed()
    {
      editing := None;
      title := "";
      lines := EditBuffer.InitialLines();
      view := New;
      EditBuffer.InitialLinesWellFormed();
    }

    /** `goBackToLibrary`: the buffer is discarded as by `startNewSong`, but the library shows. */
    method GoBackToLibrary()
      modifies this`editing, this`title, this`lines, this`view
      ensures editing.None? && title == "" && lines == EditBuffer.InitialLines() && view == Library
      ensures BufferWellFormed()
    {
      view := Library;
      editing := None;
      title := "";
      lines := EditBuffer.InitialLines();
      EditBuffer.InitialLinesWellFormed();
    }
  }
}
