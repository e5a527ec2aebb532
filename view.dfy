/** Which screen renders for a given state: loading first, then the error screen, then the view mode. */
module View {
  import opened Wrappers
  import opened Text

  /** The editor's mode: the library list, a new song, or an existing song. */
  datatype ViewMode = Library | New | Edit

  /**
   * The rendered screen. The editor shows "Edit Song" or "New Song" as its heading, enables its
   * save control only for a non-blank title while no save is in flight, and offers a remove
   * control on each line only while more than one line exists.
   */
  datatype Screen =
    | LoadingScreen
    | ErrorScreen(message: string)
    | LibraryScreen
    | EditorScreen(editHeading: bool, saveEnabled: bool, removeShown: bool)

  /** An error is shown only when it is present and not the empty string. */
  predicate HasError(error: Option<string>) {
    error.Some? && error.value != ""
  }

  function Render(loading: bool, error: Option<string>, view: ViewMode, title: string, saving: bool,
                  lineCount: nat): (r: Screen)
    ensures r.LoadingScreen? <==> loading
    ensures r.ErrorScreen? <==> !loading && HasError(error)
    ensures r.ErrorScreen? ==> r.message == error.value
    ensures r.LibraryScreen? <==> !loading && !HasError(error) && view == Library
    ensures r.EditorScreen? <==> !loading && !HasError(error) && view != Library
    ensures r.EditorScreen? ==> (r.editHeading <==> view == Edit)
    ensures r.EditorScreen? ==> (r.saveEnabled <==> !IsBlank(title) && !saving)
    ensures r.EditorScreen? ==> (r.removeShown <==> lineCount > 1)
  {
    if loading then LoadingScreen
    else if error.Some? && error.value != "" then ErrorScreen(error.value)
    else if view == Library then LibraryScreen
    else EditorScreen(view == Edit, !IsBlank(title) && !saving, lineCount > 1)
  }

  /** Once an error is set and loading is over, the error screen hides every view and every buffer. */
  lemma ErrorHidesView(error: Option<string>, v1: ViewMode, v2: ViewMode, t1: string, t2: string,
                       s1: bool, s2: bool, n1: nat, n2: nat)
    requires HasError(error)
    ensures Render(false, error, v1, t1, s1, n1) == Render(false, error, v2, t2, s2, n2) == ErrorScreen(error.value)
  {
  }
}
