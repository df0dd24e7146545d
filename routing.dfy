/** What the toolbar-click and keydown handlers decide to do, as pure decisions. */
module Routing {

  import opened Wrappers
  import opened Text
  import Plugins
  import Table

  /** The answers the user gives to whichever `prompt` a click opens (`None`: cancelled). */
  datatype Prompts = Prompts(
    url: Option<string>,
    rowsText: Option<string>,
    colsText: Option<string>,
    rows: nat,      // how many times `i < rows` holds after JavaScript's number coercion
    cols: nat)

  /**
   * The command and value a click on the button `command` passes to `execCommand`,
   * or `None` when it passes nothing: `code` toggles the view instead, and a
   * cancelled or empty prompt stops `link`, `image` and `table`.
   */
  function ClickDispatch(command: string, answers: Prompts): (r: Option<(string, Plugins.Value)>)
    ensures command == "code" ==> r.None?
    ensures command == "link" ==> (r.Some? <==> Truthy(answers.url)) && (r.Some? ==> r.value == ("createLink", Plugins.Str(answers.url.value)))
    ensures command == "image" ==> (r.Some? <==> Truthy(answers.url)) && (r.Some? ==> r.value == ("insertImage", Plugins.Str(answers.url.value)))
    ensures command == "table" ==>
      (r.Some? <==> Truthy(answers.rowsText) && Truthy(answers.colsText)) &&
      (r.Some? ==> r.value == ("insertHTML", Plugins.Str(Table.TableHtml(answers.rows, answers.cols))))
    ensures command !in {"code", "link", "image", "table"} ==> r == Some((command, Plugins.Null))
  {
    if command == "link" then
      if Truthy(answers.url) then Some(("createLink", Plugins.Str(answers.url.value))) else None
    else if command == "image" then
      if Truthy(answers.url) then Some(("insertImage", Plugins.Str(answers.url.value))) else None
    else if command == "code" then None
    else if command == "table" then
      if Truthy(answers.rowsText) && Truthy(answers.colsText) then
        Some(("insertHTML", Plugins.Str(Table.TableHtml(answers.rows, answers.cols))))
      else None
    else Some((command, Plugins.Null))
  }

  /** What a key combination with Ctrl or Meta held asks for. */
  datatype KeyCommand = Shortcut(command: string) | UndoKey | RedoKey

  /** The first test of the keydown handler: Enter without Shift inserts a paragraph. */
  predicate InsertsParagraph(key: string, shift: bool)
    ensures InsertsParagraph(key, shift) ==> Lower(key) == "enter" && !shift
  {
    key == "Enter" && !shift
  }

  /** The second test: Ctrl or Meta with b, i, u or z, whatever the letter's case. */
  function ShortcutFor(key: string, shift: bool, ctrlOrMeta: bool): (r: Option<KeyCommand>)
    ensures r.Some? ==> ctrlOrMeta && |key| == 1
    ensures r == Some(RedoKey) ==> shift
    ensures r.Some? && r.value.Shortcut? ==> r.value.command in {"bold", "italic", "underline"}
  {
    if !ctrlOrMeta then None
    else
      var k := Lower(key);
      if k == "b" then Some(Shortcut("bold"))
      else if k == "i" then Some(Shortcut("italic"))
      else if k == "u" then Some(Shortcut("underline"))
      else if k == "z" then Some(if shift then RedoKey else UndoKey)
      else None
  }

  lemma LowerIdempotent(s: string)
    ensures Lower(Lower(s)) == Lower(s)
  {
  }

  /** The two tests never both fire, so one key press does at most one thing. */
  lemma EnterExcludesShortcut(key: string, shift: bool, ctrlOrMeta: bool)
    requires InsertsParagraph(key, shift)
    ensures ShortcutFor(key, shift, ctrlOrMeta).None?
  {
    assert |Lower(key)| == 5;
  }

  /**
   * Shortcuts ignore letter case, act only with a modifier held, and are exactly
   * the one-letter keys b, i, u and z; Shift selects redo over undo.
   */
  lemma ShortcutSpec(key: string, shift: bool, ctrlOrMeta: bool)
    ensures ShortcutFor(key, shift, ctrlOrMeta) == ShortcutFor(Lower(key), shift, ctrlOrMeta)
    ensures ShortcutFor(key, shift, ctrlOrMeta).Some? ==> ctrlOrMeta && |key| == 1
    ensures ctrlOrMeta && |key| == 1 && LowerChar(key[0]) == 'z' ==>
      ShortcutFor(key, shift, ctrlOrMeta) == Some(if shift then RedoKey else UndoKey)
    ensures ctrlOrMeta && |key| == 1 && LowerChar(key[0]) == 'b' ==>
      ShortcutFor(key, shift, ctrlOrMeta) == Some(Shortcut("bold"))
    ensures ctrlOrMeta && |key| == 1 && LowerChar(key[0]) == 'i' ==>
      ShortcutFor(key, shift, ctrlOrMeta) == Some(Shortcut("italic"))
    ensures ctrlOrMeta && |key| == 1 && LowerChar(key[0]) == 'u' ==>
      ShortcutFor(key, shift, ctrlOrMeta) == Some(Shortcut("underline"))
    ensures ShortcutFor(key, shift, ctrlOrMeta).Some? ==> LowerChar(key[0]) in "biuz"
  {
    LowerIdempotent(key);
    if |key| == 1 {
      assert Lower(key) == [LowerChar(key[0])];
    }
  }
}
