/**
 * The editor's working list of lines (`songLines`) and the pure operations that build its next
 * value: append a blank line, set one field of the lines with a given id, remove lines by id,
 * and the save-time filter that drops fully blank lines.
 */
module EditBuffer {
  import opened Seqs
  import opened Text

  /** One row of a song: a client-side id, the lyrics and the flute notation. */
  datatype SongLine = SongLine(id: string, lyrics: string, fluteNotes: string)

  /** The field selector of `updateLine`: `"lyrics" | "fluteNotes"`. */
  datatype Field = Lyrics | FluteNotes {
    function Other(): Field {
      match this
      case Lyrics => FluteNotes
      case FluteNotes => Lyrics
    }
  }

  function FieldOf(line: SongLine, field: Field): string {
    match field
    case Lyrics => line.lyrics
    case FluteNotes => line.fluteNotes
  }

  /** The line with the chosen field replaced by `value` and everything else kept. */
  function SetField(line: SongLine, field: Field, value: string): SongLine {
    match field
    case Lyrics => line.(lyrics := value)
    case FluteNotes => line.(fluteNotes := value)
  }

  function BlankLine(id: string): SongLine {
    SongLine(id, "", "")
  }

  /** The buffer's initial and reset value: one empty line whose id is "1". */
  function InitialLines(): seq<SongLine> {
    [BlankLine("1")]
  }

  /** The ids of the lines, in order. */
  function Ids(lines: seq<SongLine>): (r: seq<string>)
    ensures |r| == |lines| && forall i :: 0 <= i < |lines| ==> r[i] == lines[i].id
  {
    seq(|lines|, i requires 0 <= i < |lines| => lines[i].id)
  }

  /** No two lines share an id. */
  ghost predicate DistinctIds(lines: seq<SongLine>) {
    forall i, j :: 0 <= i < j < |lines| ==> lines[i].id != lines[j].id
  }

  /** The buffer invariant the editor relies on: at least one line, and ids that tell lines apart. */
  ghost predicate WellFormed(lines: seq<SongLine>) {
    |lines| >= 1 && DistinctIds(lines)
  }

  /** Appends one empty line with the given id after the existing lines. */
  function AddNewLine(lines: seq<SongLine>, freshId: string): (r: seq<SongLine>)
    ensures |r| == |lines| + 1
    ensures r[..|lines|] == lines
    ensures r[|lines|].id == freshId && r[|lines|].lyrics == "" && r[|lines|].fluteNotes == ""
  {
    lines + [BlankLine(freshId)]
  }

  /** `updateLine`: every line with the given id gets `field` set to `value`. */
  function UpdateLine(lines: seq<SongLine>, id: string, field: Field, value: string): (r: seq<SongLine>)
    ensures |r| == |lines|
    ensures forall i :: 0 <= i < |r| ==> r[i].id == lines[i].id
    ensures forall i :: 0 <= i < |r| && lines[i].id != id ==> r[i] == lines[i]
    ensures forall i :: 0 <= i < |r| && lines[i].id == id ==>
              FieldOf(r[i], field) == value && FieldOf(r[i], field.Other()) == FieldOf(lines[i], field.Other())
  {
    if lines == [] then []
    else
      var first := if lines[0].id == id then SetField(lines[0], field, value) else lines[0];
      var rest := UpdateLine(lines[1..], id, field, value);
      assert forall i :: 1 <= i < |lines| ==> ([first] + rest)[i] == rest[i - 1] && lines[i] == lines[1..][i - 1];
      [first] + rest
  }

  /** The lines whose id differs from `id`, in their order (app/page.tsx:115). */
  function WithoutId(lines: seq<SongLine>, id: string): seq<SongLine> {
    Filter((l: SongLine) => l.id != id, lines)
  }

  /** `removeLine`: refused while only one line is left, otherwise drops every line with that id. */
  function RemoveLine(lines: seq<SongLine>, id: string): (r: seq<SongLine>)
    ensures |lines| <= 1 ==> r == lines
    ensures |lines| > 1 ==> IsSubsequence(r, lines)
    ensures |lines| > 1 ==> forall i :: 0 <= i < |r| ==> r[i].id != id
  {
    if |lines| > 1 then WithoutId(lines, id) else lines
  }

  /** Removal keeps every line with another id exactly as often as it occurred, so with `RemoveLine`'s
      contract the result is the order-preserving subsequence of lines whose id differs. */
  lemma RemoveLineCounts(lines: seq<SongLine>, id: string)
    requires |lines| > 1
    ensures forall x: SongLine :: multiset(RemoveLine(lines, id))[x] == if x.id != id then multiset(lines)[x] else 0
  {
    FilterCounts((l: SongLine) => l.id != id, lines);
  }

  /** A line whose lyrics and notes are both empty once trimmed (app/page.tsx:127). */
  predicate IsBlankLine(line: SongLine) {
    IsBlank(line.lyrics) && IsBlank(line.fluteNotes)
  }

  /** The lines `saveSong` persists: the buffer without its fully blank lines, order kept. */
  function SaveableLines(lines: seq<SongLine>): (r: seq<SongLine>)
    ensures IsSubsequence(r, lines)
    ensures forall i :: 0 <= i < |r| ==> !IsBlankLine(r[i])
  {
    Filter((l: SongLine) => !IsBlankLine(l), lines)
  }

  /** Saving keeps every line that is not blank exactly as often as it occurred, and no blank line. */
  lemma SaveableLinesCounts(lines: seq<SongLine>)
    ensures forall x: SongLine :: multiset(SaveableLines(lines))[x] == if !IsBlankLine(x) then multiset(lines)[x] else 0
  {
    FilterCounts((l: SongLine) => !IsBlankLine(l), lines);
  }

  // ---------------------------------------------------------------------------------------------
  // The line count never reaches zero while ids are distinct.

  /** The tail of a buffer with distinct ids has distinct ids and does not use the head's id. */
  lemma DistinctTail(lines: seq<SongLine>)
    requires lines != [] && DistinctIds(lines)
    ensures DistinctIds(lines[1..]) && lines[0].id !in Ids(lines[1..])
  {
    var rest := lines[1..];
    forall i, j | 0 <= i < j < |rest| ensures rest[i].id != rest[j].id {
      assert rest[i] == lines[i + 1] && rest[j] == lines[j + 1];
    }
    forall k | 0 <= k < |rest| ensures rest[k].id != lines[0].id {
      assert rest[k] == lines[k + 1];
    }
  }

  /** Putting a line with an unused id in front keeps ids distinct. */
  lemma DistinctCons(x: SongLine, lines: seq<SongLine>)
    requires DistinctIds(lines) && x.id !in Ids(lines)
    ensures DistinctIds([x] + lines)
  {
    var w := [x] + lines;
    forall i, j | 0 <= i < j < |w| ensures w[i].id != w[j].id {
      assert w[j] == lines[j - 1];
      if i > 0 {
        assert w[i] == lines[i - 1];
      } else {
        assert Ids(lines)[j - 1] == lines[j - 1].id;
      }
    }
  }

  /** Removing lines introduces no id. */
  lemma {:induction false} WithoutIdUsesNoNewId(lines: seq<SongLine>, id: string, absent: string)
    requires absent !in Ids(lines)
    ensures absent !in Ids(WithoutId(lines, id))
  {
    if lines != [] {
      var rest := lines[1..];
      assert absent !in Ids(rest) by {
        forall k | 0 <= k < |rest| ensures rest[k].id != absent {
          assert Ids(lines)[k + 1] == rest[k].id;
        }
      }
      WithoutIdUsesNoNewId(rest, id, absent);
      var r := WithoutId(rest, id);
      var w := WithoutId(lines, id);
      assert w == if lines[0].id != id then [lines[0]] + r else r;
      forall k | 0 <= k < |w| ensures w[k].id != absent {
        if lines[0].id != id && k > 0 {
          assert w[k] == r[k - 1] && Ids(r)[k - 1] == r[k - 1].id;
        } else if lines[0].id == id {
          assert Ids(r)[k] == r[k].id;
        } else {
          assert Ids(lines)[0] == lines[0].id;
        }
      }
    }
  }

  /** With distinct ids, removing by id drops exactly one line when the id is present and none otherwise. */
  lemma {:induction false} WithoutIdDistinct(lines: seq<SongLine>, id: string)
    requires DistinctIds(lines)
    ensures |WithoutId(lines, id)| == |lines| - (if id in Ids(lines) then 1 else 0)
    ensures DistinctIds(WithoutId(lines, id))
  {
    if lines != [] {
      var rest := lines[1..];
      DistinctTail(lines);
      assert Ids(lines) == [lines[0].id] + Ids(rest);
      WithoutIdDistinct(rest, id);
      if lines[0].id == id {
        forall k | 0 <= k < |rest| ensures rest[k].id != id {
          assert Ids(rest)[k] == rest[k].id;
        }
        FilterKeepsAll((l: SongLine) => l.id != id, rest);
      } else {
        WithoutIdUsesNoNewId(rest, id, lines[0].id);
        DistinctCons(lines[0], WithoutId(rest, id));
      }
    }
  }

  /** Appending a line whose id is not yet in use keeps the buffer well formed. */
  lemma AddNewLineKeepsWellFormed(lines: seq<SongLine>, freshId: string)
    requires WellFormed(lines) && freshId !in Ids(lines)
    ensures WellFormed(AddNewLine(lines, freshId))
  {
    var r := AddNewLine(lines, freshId);
    forall i, j | 0 <= i < j < |r| ensures r[i].id != r[j].id {
      if j < |lines| {
        assert r[i] == lines[i] && r[j] == lines[j];
      } else {
        assert r[i] == lines[i] && Ids(lines)[i] == lines[i].id;
      }
    }
  }

  /** Updating a field changes no id. */
  lemma UpdateLineKeepsWellFormed(lines: seq<SongLine>, id: string, field: Field, value: string)
    requires WellFormed(lines)
    ensures WellFormed(UpdateLine(lines, id, field, value))
    ensures Ids(UpdateLine(lines, id, field, value)) == Ids(lines)
  {
  }

  /** Removing by id keeps at least one line when ids are distinct. */
  lemma RemoveLineKeepsWellFormed(lines: seq<SongLine>, id: string)
    requires WellFormed(lines)
    ensures WellFormed(RemoveLine(lines, id))
    ensures |RemoveLine(lines, id)| >= |lines| - 1
  {
    if |lines| > 1 {
      WithoutIdDistinct(lines, id);
    }
  }

  /**
   * Without distinct ids the guard of `removeLine` does not protect the buffer: two lines that
   * share an id are both dropped and nothing is left.
   */
  lemma RemoveLineEmptiesDuplicateIds()
    ensures RemoveLine([SongLine("1", "Sa", ""), SongLine("1", "", "Re")], "1") == []
  {
  }

  /** One user action on the buffer. */
  datatype LineEdit =
    | AddLine(freshId: string)
    | EditField(id: string, field: Field, value: string)
    | DropLine(id: string)

  function Apply(lines: seq<SongLine>, e: LineEdit): seq<SongLine> {
    match e
    case AddLine(freshId) => AddNewLine(lines, freshId)
    case EditField(id, field, value) => UpdateLine(lines, id, field, value)
    case DropLine(id) => RemoveLine(lines, id)
  }

  function Run(lines: seq<SongLine>, edits: seq<LineEdit>): seq<SongLine>
    decreases |edits|
  {
    if edits == [] then lines else Run(Apply(lines, edits[0]), edits[1..])
  }

  /** Every appended line gets an id that is not in the buffer at that moment. */
  ghost predicate FreshIds(lines: seq<SongLine>, edits: seq<LineEdit>)
    decreases |edits|
  {
    edits == []
    || ((edits[0].AddLine? ==> edits[0].freshId !in Ids(lines)) && FreshIds(Apply(lines, edits[0]), edits[1..]))
  }

  /** Under any sequence of add, update and remove with fresh ids, the buffer keeps at least one line. */
  lemma {:induction false} RunKeepsWellFormed(lines: seq<SongLine>, edits: seq<LineEdit>)
    requires WellFormed(lines) && FreshIds(lines, edits)
    ensures WellFormed(Run(lines, edits))
    ensures |Run(lines, edits)| >= 1
    decreases |edits|
  {
    if edits != [] {
      match edits[0] {
        case AddLine(freshId) => AddNewLineKeepsWellFormed(lines, freshId);
        case EditField(id, field, value) => UpdateLineKeepsWellFormed(lines, id, field, value);
        case DropLine(id) => RemoveLineKeepsWellFormed(lines, id);
      }
      RunKeepsWellFormed(Apply(lines, edits[0]), edits[1..]);
    }
  }

  lemma InitialLinesWellFormed()
    ensures WellFormed(InitialLines())
  {
  }

  // ---------------------------------------------------------------------------------------------
  // What the save filter keeps.

  /** An appended blank line is never persisted: saving before or after `addNewLine` stores the same lines. */
  lemma AddedLineNotSaved(lines: seq<SongLine>, freshId: string)
    ensures SaveableLines(AddNewLine(lines, freshId)) == SaveableLines(lines)
  {
    FilterAppend((l: SongLine) => !IsBlankLine(l), lines, BlankLine(freshId));
  }

  /** The reset buffer holds nothing worth saving. */
  lemma InitialLinesNotSaved()
    ensures SaveableLines(InitialLines()) == [] == SaveableLines([])
  {
    var x := BlankLine("1");
    assert IsBlankLine(x);
    FilterAppend((l: SongLine) => !IsBlankLine(l), [], x);
    assert [] + [x] == InitialLines();
  }

  /** A buffer without blank lines is saved as it is. */
  lemma SaveableLinesKeepsNonBlank(lines: seq<SongLine>)
    requires forall i :: 0 <= i < |lines| ==> !IsBlankLine(lines[i])
    ensures SaveableLines(lines) == lines
  {
    FilterKeepsAll((l: SongLine) => !IsBlankLine(l), lines);
  }

  /** The worked case: a line with lyrics only is kept, a fully empty line is dropped. */
  lemma SaveableLinesExample()
    ensures SaveableLines([SongLine("1", "Radha", ""), SongLine("2", "", "")]) == [SongLine("1", "Radha", "")]
  {
    var l1, l2 := SongLine("1", "Radha", ""), SongLine("2", "", "");
    NotBlankOnLeadingText("Radha");
    assert !IsBlankLine(l1) && IsBlankLine(l2);
    var p := (l: SongLine) => !IsBlankLine(l);
    FilterAppend(p, [], l1);
    assert [] + [l1] == [l1];
    FilterAppend(p, [l1], l2);
    assert [l1] + [l2] == [l1, l2];
  }
}
