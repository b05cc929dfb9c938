/**
 * The notes editor: Markdown markers wrapped around the selected text, the
 * toolbar's table of markers, the keyboard shortcuts, and the editable copy
 * of the generated notes.
 */
module NotesDisplay {
  import opened JsString
  import opened Wrappers

  /** The `selectedText` state: the selection's bounds and the text they covered when captured. */
  datatype Selection = Selection(start: int, end: int, text: string)

  /** A Markdown marker pair; `formatText(prefix)` defaults the suffix to the prefix. */
  datatype Markup = Markup(prefix: string, suffix: string)

  function Symmetric(marker: string): Markup {
    Markup(marker, marker)
  }

  /** `handleSelection`: the bounds and `value.substring(start, end)`. */
  function SelectionOf(value: string, start: int, end: int): (sel: Selection)
    ensures 0 <= start <= end <= |value| ==> sel.text == value[start..end]
  {
    Selection(start, end, Substring(value, start, end))
  }

  /**
   * `formatText(prefix, suffix)`: with an empty selection nothing changes;
   * otherwise the notes before `start`, the prefix, the captured text, the
   * suffix, and the notes from `end` on.
   */
  function FormatText(notes: string, sel: Selection, m: Markup): (r: string)
    ensures sel.start == sel.end ==> r == notes
  {
    if sel.start == sel.end then notes
    else Substring(notes, 0, sel.start) + m.prefix + sel.text + m.suffix + Substring(notes, sel.end, |notes|)
  }

  /** The inverse of `FormatText`: drop `p` characters at `start` and `q` after the `len` wrapped ones. */
  function Unformat(r: string, start: nat, len: nat, p: nat, q: nat): string
    requires start + p + len + q <= |r|
  {
    r[..start] + r[start + p..start + p + len] + r[start + p + len + q..]
  }

  /**
   * For a non-empty selection inside the notes, everything before `start` and
   * everything from `end` on is kept verbatim, with the markers and the
   * captured text between them.
   */
  lemma FormatPreserves(notes: string, sel: Selection, m: Markup)
    requires 0 <= sel.start < sel.end <= |notes|
    ensures var r := FormatText(notes, sel, m);
      var tail := |notes| - sel.end;
      |r| == sel.start + |m.prefix| + |sel.text| + |m.suffix| + tail
      && r[..sel.start] == notes[..sel.start]
      && r[sel.start..sel.start + |m.prefix|] == m.prefix
      && r[sel.start + |m.prefix|..sel.start + |m.prefix| + |sel.text|] == sel.text
      && r[|r| - tail - |m.suffix|..|r| - tail] == m.suffix
      && r[|r| - tail..] == notes[sel.end..]
  {
    var before, after := notes[..sel.start], notes[sel.end..];
    var r := FormatText(notes, sel, m);
    assert r == before + m.prefix + sel.text + m.suffix + after;
    var i := sel.start + |m.prefix|;
    var j := i + |sel.text|;
    var k := j + |m.suffix|;
    assert r[..sel.start] == before;
    assert r[sel.start..i] == m.prefix;
    assert r[i..j] == sel.text;
    assert r[j..k] == m.suffix;
    assert r[k..] == after;
  }

  /**
   * With the selection captured from the current notes, formatting grows the
   * notes by exactly the two markers, and deleting them gives the notes back.
   */
  lemma FormatRoundTrip(notes: string, start: int, end: int, m: Markup)
    requires 0 <= start < end <= |notes|
    ensures var r := FormatText(notes, SelectionOf(notes, start, end), m);
      |r| == |notes| + |m.prefix| + |m.suffix|
      && Unformat(r, start, end - start, |m.prefix|, |m.suffix|) == notes
  {
    var sel := SelectionOf(notes, start, end);
    FormatPreserves(notes, sel, m);
    var r := FormatText(notes, sel, m);
    var i := start + |m.prefix|;
    var k := i + (end - start) + |m.suffix|;
    assert r[i..i + (end - start)] == notes[start..end];
    assert r[k..] == notes[end..];
    assert notes[..start] + notes[start..end] + notes[end..] == notes;
  }

  /** One toolbar button: its caption and the markers it wraps the selection in. */
  datatype FormatOp = FormatOp(caption: string, markup: Markup)

  /** `formatOperations`: the toolbar, in order; only Link has a suffix different from its prefix. */
  function FormatOperations(): (ops: seq<FormatOp>)
    ensures |ops| == 11
    ensures forall i :: 0 <= i < |ops| ==> |ops[i].markup.prefix| > 0
    ensures forall i :: 0 <= i < |ops| ==>
      (ops[i].markup.suffix != ops[i].markup.prefix <==> ops[i].caption == "Link")
  {
    [ FormatOp("Bold", Symmetric("**")),
      FormatOp("Italic", Symmetric("*")),
      FormatOp("Heading 1", Symmetric("# ")),
      FormatOp("Heading 2", Symmetric("## ")),
      FormatOp("Heading 3", Symmetric("### ")),
      FormatOp("Quote", Symmetric("> ")),
      FormatOp("Code", Symmetric("`")),
      FormatOp("Link", Markup("[", "](url)")),
      FormatOp("List Item", Symmetric("- ")),
      FormatOp("Number List", Symmetric("1. ")),
      FormatOp("Divider", Symmetric("\n\n---\n\n")) ]
  }

  /** `handleKeyDown`: the markers a key selects, only with Ctrl or Meta held. */
  function Shortcut(key: string, ctrlKey: bool, metaKey: bool): (r: Option<Markup>)
    ensures r.Some? <==> (ctrlKey || metaKey) && key in {"b", "i", "k", "'", "`"}
  {
    if !(ctrlKey || metaKey) then None
    else if key == "b" then Some(Symmetric("**"))
    else if key == "i" then Some(Symmetric("*"))
    else if key == "k" then Some(Markup("[", "](url)"))
    else if key == "'" || key == "`" then Some(Symmetric("`"))
    else None
  }

  /** Each shortcut applies exactly the markers of the toolbar button it stands for. */
  lemma ShortcutsMatchToolbar(ctrlKey: bool, metaKey: bool)
    requires ctrlKey || metaKey
    ensures var ops := FormatOperations();
      ops[0].caption == "Bold" && Shortcut("b", ctrlKey, metaKey) == Some(ops[0].markup)
      && ops[1].caption == "Italic" && Shortcut("i", ctrlKey, metaKey) == Some(ops[1].markup)
      && ops[7].caption == "Link" && Shortcut("k", ctrlKey, metaKey) == Some(ops[7].markup)
      && ops[6].caption == "Code" && Shortcut("'", ctrlKey, metaKey) == Some(ops[6].markup)
      && Shortcut("`", ctrlKey, metaKey) == Some(ops[6].markup)
  {
  }

  /** The `NotesDisplay` component's state. */
  class NotesEditor {
    var editableNotes: string
    var selectedText: Selection
    /** The `notes` prop as the sync effect last saw it. */
    var shownNotes: string

    /** Mounting runs the sync effect once. */
    constructor (notes: string)
      ensures editableNotes == notes && shownNotes == notes
      ensures selectedText == Selection(0, 0, "")
    {
      editableNotes := notes;
      shownNotes := notes;
      selectedText := Selection(0, 0, "");
    }

    /**
     * A render with a `notes` prop: the effect keyed on `notes` overwrites the
     * editable copy only when the prop differs from the one it last saw.
     */
    method NotesPropChanged(notes: string)
      modifies this`editableNotes, this`shownNotes
      ensures shownNotes == notes
      ensures editableNotes == if notes != old(shownNotes) then notes else old(editableNotes)
    {
      if notes != shownNotes {
        editableNotes := notes;
      }
      shownNotes := notes;
    }

    /** The textarea's `onChange`. */
    method Edit(value: string)
      modifies this`editableNotes
      ensures editableNotes == value
    {
      editableNotes := value;
    }

    /** The textarea's `onSelect`. */
    method HandleSelection(value: string, start: int, end: int)
      modifies this`selectedText
      ensures selectedText == SelectionOf(value, start, end)
    {
      selectedText := Selection(start, end, Substring(value, start, end));
    }

    /** `formatText`: splice the markers around the last captured selection. */
    method ApplyFormat(m: Markup)
      modifies this`editableNotes
      ensures editableNotes == FormatText(old(editableNotes), selectedText, m)
    {
      if selectedText.start == selectedText.end {
        return;
      }
      var before := Substring(editableNotes, 0, selectedText.start);
      var after := Substring(editableNotes, selectedText.end, |editableNotes|);
      editableNotes := before + m.prefix + selectedText.text + m.suffix + after;
    }

    /** A toolbar button's `action`. */
    method ClickOperation(i: nat)
      requires i < |FormatOperations()|
      modifies this`editableNotes
      ensures editableNotes == FormatText(old(editableNotes), selectedText, FormatOperations()[i].markup)
    {
      ApplyFormat(FormatOperations()[i].markup);
    }

    /**
     * `handleKeyDown`: a shortcut key formats the selection and reports that
     * the browser's default action is prevented; any other key changes nothing.
     */
    method HandleKeyDown(key: string, ctrlKey: bool, metaKey: bool) returns (preventDefault: bool)
      modifies this`editableNotes
      ensures preventDefault == Shortcut(key, ctrlKey, metaKey).Some?
      ensures preventDefault ==>
        editableNotes == FormatText(old(editableNotes), selectedText, Shortcut(key, ctrlKey, metaKey).value)
      ensures !preventDefault ==> editableNotes == old(editableNotes)
    {
      var m := Shortcut(key, ctrlKey, metaKey);
      preventDefault := m.Some?;
      if m.Some? {
        ApplyFormat(m.value);
      }
    }
  }
}
