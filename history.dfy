/**
 * The editor's recording state machine as pure transitions: the editor content
 * (`editor.innerHTML`), whether the surface is in rich mode (`contentEditable`), the
 * mirrored `input.value`, the snapshot log `history` and its cursor `historyIndex`.
 * Reading back an assigned `innerHTML` or `textContent` is taken to give the same string.
 */
module History {

  datatype EditorState = EditorState(
    content: string,
    editable: bool,
    inputValue: string,
    history: seq<string>,
    index: int)

  /** The cursor points into the log. */
  predicate Valid(s: EditorState)
  {
    0 <= s.index < |s.history|
  }

  /** The cursor is the last entry: the invariant every recording re-establishes. */
  predicate AtTail(s: EditorState)
  {
    0 <= s.index && |s.history| == s.index + 1
  }

  /** The last snapshot, the editor and the mirrored input all hold the same content. */
  predicate Recorded(s: EditorState)
  {
    AtTail(s) && s.history[s.index] == s.content && s.inputValue == s.content
  }

  /**
   * Assigning `innerHTML` or `textContent` and reading either back gives the same
   * string: the modelling assumption that stands in for HTML parsing and escaping.
   */
  function ReadBack(written: string): string
  {
    written
  }

  function Min(a: int, b: int): int
  {
    if a <= b then a else b
  }

  /**
   * `saveToHistory`: advance the cursor, drop every entry from the new cursor on
   * (`slice` clamps at the end of the log), append the current content.
   */
  function SaveToHistory(s: EditorState): (r: EditorState)
    requires s.index >= -1
    ensures r.content == s.content && r.editable == s.editable && r.inputValue == s.inputValue
    ensures r.index == s.index + 1
    ensures s.index < |s.history| ==> AtTail(r)
    ensures |r.history| >= 1 && r.history[|r.history| - 1] == s.content
    ensures s.index < |s.history| ==> r.history[..r.index] == s.history[..r.index]
    ensures AtTail(s) ==> r.history == s.history + [s.content]
  {
    var i := s.index + 1;
    s.(index := i, history := s.history[..Min(i, |s.history|)] + [s.content])
  }

  /** `updateInputValue`: mirror the content into the input, then record it. */
  function UpdateInputValue(s: EditorState): (r: EditorState)
    requires s.index >= -1
    ensures s.index < |s.history| ==> Recorded(r)
    ensures r.content == s.content && r.editable == s.editable
    ensures AtTail(s) ==> r.history == s.history + [s.content] && r.index == s.index + 1
  {
    SaveToHistory(s.(inputValue := s.content))
  }

  /** The state right after construction: one snapshot of the initial content. */
  function Initial(content: string): (r: EditorState)
    ensures Recorded(r) && r.history == [content] && r.index == 0 && r.editable
  {
    UpdateInputValue(EditorState(content, true, "", [], -1))
  }

  /**
   * `undo`: step the cursor back, load that snapshot, and record it through
   * `updateInputValue`, which overwrites the entry the undo started from.
   */
  function Undo(s: EditorState): (r: EditorState)
    requires Valid(s)
    ensures Valid(r)
    ensures s.index == 0 ==> r == s
    ensures s.index > 0 ==>
      Recorded(r) && r.index == s.index && r.editable == s.editable &&
      r.content == s.history[s.index - 1] &&
      r.history == s.history[..s.index] + [s.history[s.index - 1]]
    ensures AtTail(s) && s.index > 0 ==> r.history == s.history[s.index := s.history[s.index - 1]]
  {
    if s.index > 0 then
      var i := s.index - 1;
      UpdateInputValue(s.(index := i, content := s.history[i]))
    else s
  }

  /**
   * `redo`: only when the cursor is before the last entry; it steps forward, loads
   * that snapshot and records it, so the cursor ends two places further on.
   */
  function Redo(s: EditorState): (r: EditorState)
    requires Valid(s)
    ensures Valid(r)
    ensures AtTail(s) ==> r == s
    ensures s.index < |s.history| - 1 ==>
      Recorded(r) && r.index == s.index + 2 && r.content == s.history[s.index + 1] &&
      r.history == s.history[..s.index + 2] + [s.history[s.index + 1]]
  {
    if s.index < |s.history| - 1 then
      var i := s.index + 1;
      UpdateInputValue(s.(index := i, content := s.history[i]))
    else s
  }

  /**
   * `toggleSource`: rich mode shows the markup as text, source mode turns the text
   * back into markup; with read-back taken as the identity the string is kept. Records.
   */
  function ToggleSource(s: EditorState): (r: EditorState)
    requires s.index >= -1
    ensures r.editable == !s.editable && r.content == s.content
    ensures s.index < |s.history| ==> Recorded(r)
    ensures AtTail(s) ==> r.history == s.history + [s.content]
  {
    var switched :=
      if s.editable then s.(content := ReadBack(s.content), editable := false)
      else s.(content := ReadBack(s.content), editable := true);
    UpdateInputValue(switched)
  }

  /** Undoing twice in a row is the same as undoing once. */
  lemma UndoIdempotent(s: EditorState)
    requires Valid(s)
    ensures Undo(Undo(s)) == Undo(s)
  {
  }

  /** Toggling twice returns to the starting mode and content, with two new snapshots. */
  lemma ToggleTwice(s: EditorState)
    requires AtTail(s)
    ensures var r := ToggleSource(ToggleSource(s));
      r.editable == s.editable && r.content == s.content &&
      r.history == s.history + [s.content, s.content] && Recorded(r)
  {
  }

  /** A toolbar click on `code` toggles and then records once more: two new snapshots. */
  lemma CodeClickRecordsTwice(s: EditorState)
    requires AtTail(s)
    ensures var r := UpdateInputValue(ToggleSource(s));
      r.editable == !s.editable && r.content == s.content &&
      r.history == s.history + [s.content, s.content] && Recorded(r)
  {
  }

  /** What can happen to the state between two records or within one event handler. */
  datatype Step =
    | Edit(content: string)      // the browser changes the content: typing, execCommand
    | Update                     // updateInputValue
    | UndoStep
    | RedoStep
    | Toggle

  function Apply(s: EditorState, step: Step): (r: EditorState)
    requires Valid(s)
    ensures Valid(r)
  {
    match step
    case Edit(c) => s.(content := c)
    case Update => UpdateInputValue(s)
    case UndoStep => Undo(s)
    case RedoStep => Redo(s)
    case Toggle => ToggleSource(s)
  }

  function Run(s: EditorState, steps: seq<Step>): (r: EditorState)
    requires Valid(s)
    ensures Valid(r)
    decreases |steps|
  {
    if steps == [] then s else Run(Apply(s, steps[0]), steps[1..])
  }

  /** Every step keeps the cursor on the last entry. */
  lemma {:induction false} RunStaysAtTail(s: EditorState, steps: seq<Step>)
    requires AtTail(s)
    ensures AtTail(Run(s, steps))
    decreases |steps|
  {
    if steps != [] {
      RunStaysAtTail(Apply(s, steps[0]), steps[1..]);
    }
  }

  /** From construction on, whatever happens, `redo` changes nothing: its guard never holds. */
  lemma RedoNeverFires(initial: string, steps: seq<Step>)
    ensures var s := Run(Initial(initial), steps);
      AtTail(s) && Redo(s) == s
  {
    RunStaysAtTail(Initial(initial), steps);
  }

  /** After an undo, a redo does not bring back the content the undo replaced. */
  lemma UndoThenRedoLoses(s: EditorState)
    requires Recorded(s) && s.index > 0
    requires s.history[s.index - 1] != s.history[s.index]
    ensures Redo(Undo(s)).content != s.content
    ensures Redo(Undo(s)) == Undo(s)
  {
  }

  /** A concrete run: edit "a" to "b" and record, undo, redo: the editor shows "a". */
  lemma UndoThenRedoExample()
    ensures var s := Run(Initial("a"), [Edit("b"), Update]);
      s.content == "b" && Redo(Undo(s)).content == "a"
  {
    var s0 := Initial("a");
    var s1 := Apply(s0, Edit("b"));
    var s2 := Apply(s1, Update);
    assert Run(s0, [Edit("b"), Update]) == Run(s1, [Update]);
    assert Run(s1, [Update]) == Run(s2, []);
    assert s2.history == ["a", "b"];
  }

  /**
   * The intended linear history: undo and redo move the cursor and load the snapshot
   * into the editor and the input, without recording.
   */
  function IntendedUndo(s: EditorState): (r: EditorState)
    requires Valid(s)
    ensures Valid(r) && r.history == s.history
    ensures r.index == if s.index > 0 then s.index - 1 else s.index
  {
    if s.index > 0 then
      var i := s.index - 1;
      s.(index := i, content := s.history[i], inputValue := s.history[i])
    else s
  }

  function IntendedRedo(s: EditorState): (r: EditorState)
    requires Valid(s)
    ensures Valid(r) && r.history == s.history
    ensures r.index == if s.index < |s.history| - 1 then s.index + 1 else s.index
  {
    if s.index < |s.history| - 1 then
      var i := s.index + 1;
      s.(index := i, content := s.history[i], inputValue := s.history[i])
    else s
  }

  /** The cursor is on a snapshot that the editor and the input both show. */
  predicate Shown(s: EditorState)
  {
    Valid(s) && s.content == s.history[s.index] && s.inputValue == s.content
  }

  function UndoTimes(s: EditorState, k: nat): (r: EditorState)
    requires Valid(s)
    ensures Valid(r)
    decreases k
  {
    if k == 0 then s else UndoTimes(IntendedUndo(s), k - 1)
  }

  function RedoTimes(s: EditorState, k: nat): (r: EditorState)
    requires Valid(s)
    ensures Valid(r)
    decreases k
  {
    if k == 0 then s else RedoTimes(IntendedRedo(s), k - 1)
  }

  lemma {:induction false} UndoTimesMoves(s: EditorState, k: nat)
    requires Shown(s) && k <= s.index
    ensures UndoTimes(s, k) == s.(index := s.index - k, content := s.history[s.index - k], inputValue := s.history[s.index - k])
    decreases k
  {
    if k > 0 {
      UndoTimesMoves(IntendedUndo(s), k - 1);
    }
  }

  lemma {:induction false} RedoTimesMoves(s: EditorState, k: nat)
    requires Shown(s) && s.index + k < |s.history|
    ensures RedoTimes(s, k) == s.(index := s.index + k, content := s.history[s.index + k], inputValue := s.history[s.index + k])
    decreases k
  {
    if k > 0 {
      RedoTimesMoves(IntendedRedo(s), k - 1);
    }
  }

  /** Intended behaviour: `k` undos followed by `k` redos restore the state exactly. */
  lemma UndoRedoRoundTrip(s: EditorState, k: nat)
    requires Shown(s) && k <= s.index
    ensures RedoTimes(UndoTimes(s, k), k) == s
  {
    UndoTimesMoves(s, k);
    RedoTimesMoves(UndoTimes(s, k), k);
  }
}
