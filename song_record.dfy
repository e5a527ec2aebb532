/**
 * The persisted song record and the store calls the editor issues. The store itself is not
 * modelled; a call is described by the request value the client builds.
 */
module SongRecord {
  import opened Wrappers
  import opened Seqs
  import opened EditBuffer

  /** A stored song: `{ id, title, lines, created_at, updated_at, user_id }`. */
  datatype Song = Song(id: string, title: string, lines: seq<SongLine>, createdAt: string, updatedAt: string, userId: string)

  /** The write `saveSong` sends: an insert, or an update filtered by record id and owner. */
  datatype SaveRequest =
    | Insert(record: Song)
    | Update(record: Song, matchId: string, matchUserId: string)

  /** The delete `deleteSong` sends, filtered by record id and owner. */
  datatype DeleteRequest = Delete(matchId: string, matchUserId: string)

  /** The first string unless it is empty, then the second: how `||` picks between two strings. */
  function OrElse(a: string, b: string): string {
    if a != "" then a else b
  }

  /**
   * The record `saveSong` builds from the buffer: the untrimmed title, the saveable lines, the
   * current user as owner and `updatedNow` as modification time; an edited song keeps its id and
   * creation time, a new one takes `freshId` and `createdNow`. The two timestamps are separate
   * clock readings (app/page.tsx:129 and 130).
   */
  function BuildRecord(editing: Option<Song>, title: string, lines: seq<SongLine>, userId: string,
                       freshId: string, createdNow: string, updatedNow: string): (r: Song)
    ensures r.title == title && r.userId == userId && r.updatedAt == updatedNow
    ensures r.lines == SaveableLines(lines)
    ensures IsSubsequence(r.lines, lines)
    ensures forall i :: 0 <= i < |r.lines| ==> !IsBlankLine(r.lines[i])
    ensures editing.None? ==> r.id == freshId && r.createdAt == createdNow
    ensures editing.Some? && editing.value.id != "" ==> r.id == editing.value.id
    ensures editing.Some? && editing.value.createdAt != "" ==> r.createdAt == editing.value.createdAt
    ensures editing.Some? && editing.value.id == "" ==> r.id == freshId
    ensures editing.Some? && editing.value.createdAt == "" ==> r.createdAt == createdNow
  {
    Song(
      id := if editing.Some? then OrElse(editing.value.id, freshId) else freshId,
      title := title,
      lines := SaveableLines(lines),
      createdAt := if editing.Some? then OrElse(editing.value.createdAt, createdNow) else createdNow,
      updatedAt := updatedNow,
      userId := userId)
  }

  /** An edit becomes an update scoped by the edited song's id and the owner; a new song an insert. */
  function SaveRequestFor(editing: Option<Song>, record: Song, userId: string): (r: SaveRequest)
    ensures r.record == record
    ensures r.Update? <==> editing.Some?
    ensures r.Update? ==> r.matchId == editing.value.id && r.matchUserId == userId
  {
    match editing
    case Some(e) => Update(record, e.id, userId)
    case None => Insert(record)
  }

  /** The buffer `editSong` loads: the song's lines, or one empty line when it has none. */
  function EditorLines(s: Song): (r: seq<SongLine>)
    ensures |r| >= 1
    ensures |s.lines| > 0 ==> r == s.lines
    ensures |s.lines| == 0 ==> r == InitialLines()
    ensures SaveableLines(r) == SaveableLines(s.lines)
  {
    if |s.lines| > 0 then s.lines
    else
      InitialLinesNotSaved();
      InitialLines()
  }

  /**
   * Opening a stored song in the editor and saving it unchanged writes back the same title,
   * lines, id and creation time, given that the record holds no blank line (as every record
   * built by `saveSong` does) and has non-empty id and creation time.
   */
  lemma EditThenSaveRoundTrip(s: Song, freshId: string, createdNow: string, now: string)
    requires forall i :: 0 <= i < |s.lines| ==> !IsBlankLine(s.lines[i])
    requires s.id != "" && s.createdAt != ""
    ensures BuildRecord(Some(s), s.title, EditorLines(s), s.userId, freshId, createdNow, now)
            == s.(updatedAt := now)
  {
    SaveableLinesKeepsNonBlank(s.lines);
  }

  /** A record built by `saveSong` is a fixed point of the save filter when reopened. */
  lemma SavedRecordReopens(editing: Option<Song>, title: string, lines: seq<SongLine>, userId: string,
                           freshId: string, createdNow: string, updatedNow: string)
    ensures var r := BuildRecord(editing, title, lines, userId, freshId, createdNow, updatedNow);
            SaveableLines(EditorLines(r)) == r.lines
  {
    var r := BuildRecord(editing, title, lines, userId, freshId, createdNow, updatedNow);
    SaveableLinesKeepsNonBlank(r.lines);
  }
}
