/**
 * The `Wysiii` editor: its content and mode, the mirrored input value, the snapshot
 * log with its cursor, the plugin registry, and the event handlers that drive them.
 * What the browser does to the content (`document.execCommand`, typing) arrives as a
 * parameter; hook calls, formatting calls and focus are returned as events.
 */
module Editor {

  import opened Wrappers
  import opened Text
  import History
  import Plugins
  import Options
  import Table
  import I18n
  import Routing

  const BEFORE: string := "beforeExecCommand"
  const AFTER: string := "afterExecCommand"
  const PLACEHOLDER: string := "<p>Commencez à écrire ici...</p>"

  /** The events of one `execCommand(command, value)`. */
  function CommandTrace(es: seq<Plugins.Entry>, command: string, value: Plugins.Value): (r: seq<Plugins.Event>)
    ensures |r| == |Plugins.HookCalls(es, BEFORE, [Plugins.Str(command), value])|
      + |Plugins.HookCalls(es, AFTER, [Plugins.Str(command), value])| + 2
    ensures r[|r| - 1] == Plugins.Focus
    ensures forall j :: 0 <= j < |r| && r[j].Format? ==> r[j] == Plugins.Format(command, value)
  {
    var args := [Plugins.Str(command), value];
    Plugins.HookCalls(es, BEFORE, args) + [Plugins.Format(command, value)]
      + Plugins.HookCalls(es, AFTER, args) + [Plugins.Focus]
  }

  /**
   * `execCommand` runs every before-hook, then exactly one formatting call, then every
   * after-hook, and ends by focusing the editor.
   */
  lemma CommandTraceOrder(es: seq<Plugins.Entry>, command: string, value: Plugins.Value)
    ensures var t := CommandTrace(es, command, value);
      var args := [Plugins.Str(command), value];
      var nb := |Plugins.HookCalls(es, BEFORE, args)|;
      nb < |t| - 1 && t[nb] == Plugins.Format(command, value) && t[|t| - 1] == Plugins.Focus &&
      t[..nb] == Plugins.HookCalls(es, BEFORE, args) &&
      t[nb + 1 .. |t| - 1] == Plugins.HookCalls(es, AFTER, args) &&
      (forall j :: 0 <= j < nb ==> t[j].HookCall? && t[j].hook == BEFORE && t[j].args == args) &&
      (forall j :: nb < j < |t| - 1 ==> t[j].HookCall? && t[j].hook == AFTER && t[j].args == args) &&
      (forall j :: 0 <= j < |t| && !t[j].HookCall? ==> j == nb || j == |t| - 1)
  {
    var args := [Plugins.Str(command), value];
    var before := Plugins.HookCalls(es, BEFORE, args);
    var after := Plugins.HookCalls(es, AFTER, args);
    var t := CommandTrace(es, command, value);
    assert t == before + [Plugins.Format(command, value)] + after + [Plugins.Focus];
    assert t[..|before|] == before;
    assert t[|before| + 1 .. |t| - 1] == after;
    forall j | |before| < j < |t| - 1 ensures t[j] == after[j - |before| - 1] {
    }
  }

  /** `options.lang || 'fr'`. */
  function Language(lang: Option<string>): (r: string)
    ensures r != "" && (r == "fr" || Some(r) == lang)
    ensures Truthy(lang) ==> r == lang.value
  {
    if Truthy(lang) then lang.value else "fr"
  }

  /** `input.value || placeholder`: the content the editor starts with. */
  function StartContent(inputValue: string): (r: string)
    ensures r != ""
    ensures r == inputValue || inputValue == ""
    ensures inputValue == "" ==> r == PLACEHOLDER
  {
    if inputValue == "" then PLACEHOLDER else inputValue
  }

  class Wysiii {
    var content: string        // editor.innerHTML
    var editable: bool         // editor.contentEditable === 'true'
    var inputValue: string     // input.value
    var history: seq<string>
    var historyIndex: int
    const lang: string
    const options: Options.Config
    const pluginManager: Plugins.PluginManager

    function State(): History.EditorState
      reads this
    {
      History.EditorState(content, editable, inputValue, history, historyIndex)
    }

    ghost predicate Valid()
      reads this, pluginManager
    {
      History.Valid(State()) && pluginManager.Valid()
    }

    /** The constructor after its configuration has been read and its language found. */
    constructor (inputValue: string, lang: string, options: Options.Config)
      ensures Valid() && fresh(pluginManager) && pluginManager.Entries() == []
      ensures State() == History.Initial(StartContent(inputValue))
      ensures this.lang == lang && this.options == options
    {
      this.lang := lang;
      this.options := options;
      pluginManager := new Plugins.PluginManager();
      content := StartContent(inputValue);
      editable := true;
      this.inputValue := inputValue;
      history := [];
      historyIndex := -1;
      new;
      UpdateInputValue();
    }

    method SaveToHistory()
      requires historyIndex >= -1
      modifies this
      ensures State() == History.SaveToHistory(old(State()))
    {
      historyIndex := historyIndex + 1;
      history := history[..History.Min(historyIndex, |history|)];
      history := history + [content];
    }

    method UpdateInputValue()
      requires historyIndex >= -1
      modifies this
      ensures State() == History.UpdateInputValue(old(State()))
    {
      inputValue := content;
      SaveToHistory();
    }

    method Undo()
      requires Valid()
      modifies this
      ensures Valid()
      ensures State() == History.Undo(old(State()))
    {
      if historyIndex > 0 {
        historyIndex := historyIndex - 1;
        content := history[historyIndex];
        UpdateInputValue();
      }
    }

    method Redo()
      requires Valid()
      modifies this
      ensures Valid()
      ensures State() == History.Redo(old(State()))
    {
      if historyIndex < |history| - 1 {
        historyIndex := historyIndex + 1;
        content := history[historyIndex];
        UpdateInputValue();
      }
    }

    method ToggleSource()
      requires Valid()
      modifies this
      ensures Valid()
      ensures State() == History.ToggleSource(old(State()))
    {
      if editable {
        content := History.ReadBack(content);    // textContent = innerHTML
        editable := false;
      } else {
        content := History.ReadBack(content);    // innerHTML = textContent
        editable := true;
      }
      UpdateInputValue();
    }

    /**
     * `execCommand(command, value)`; `formatted` is the content the browser's formatting
     * command leaves. Nothing is recorded here.
     */
    method ExecCommand(command: string, value: Plugins.Value, formatted: string) returns (events: seq<Plugins.Event>)
      requires Valid()
      modifies this
      ensures Valid()
      ensures State() == old(State()).(content := formatted)
      ensures events == CommandTrace(pluginManager.Entries(), command, value)
    {
      var args := [Plugins.Str(command), value];
      var before := pluginManager.Exec(BEFORE, args);
      content := formatted;
      var after := pluginManager.Exec(AFTER, args);
      events := before + [Plugins.Format(command, value)] + after + [Plugins.Focus];
    }

    /** `insertTable` with the two prompt answers and their numeric values. */
    method InsertTable(rowsText: Option<string>, colsText: Option<string>, rows: nat, cols: nat, formatted: string)
      returns (events: seq<Plugins.Event>)
      requires Valid()
      modifies this
      ensures Valid()
      ensures Truthy(rowsText) && Truthy(colsText) ==>
        State() == old(State()).(content := formatted) &&
        events == CommandTrace(pluginManager.Entries(), "insertHTML", Plugins.Str(Table.TableHtml(rows, cols)))
      ensures !(Truthy(rowsText) && Truthy(colsText)) ==> State() == old(State()) && events == []
    {
      events := [];
      if Truthy(rowsText) && Truthy(colsText) {
        var table := Table.BuildTable(rows, cols);
        events := ExecCommand("insertHTML", Plugins.Str(table), formatted);
      }
    }

    /** The toolbar's click handler, for a click on the button of `command`. */
    method ClickButton(command: string, answers: Routing.Prompts, formatted: string) returns (events: seq<Plugins.Event>)
      requires Valid()
      modifies this
      ensures Valid() && History.Recorded(State())
      ensures command == "code" ==>
        events == [] && State() == History.UpdateInputValue(History.ToggleSource(old(State())))
      ensures command != "code" ==>
        var d := Routing.ClickDispatch(command, answers);
        events == (if d.Some? then CommandTrace(pluginManager.Entries(), d.value.0, d.value.1) else []) &&
        State() == History.UpdateInputValue(old(State()).(content := if d.Some? then formatted else old(content)))
    {
      events := [];
      if command == "link" {
        if Truthy(answers.url) {
          events := ExecCommand("createLink", Plugins.Str(answers.url.value), formatted);
        }
      } else if command == "image" {
        if Truthy(answers.url) {
          events := ExecCommand("insertImage", Plugins.Str(answers.url.value), formatted);
        }
      } else if command == "code" {
        ToggleSource();
      } else if command == "table" {
        events := InsertTable(answers.rowsText, answers.colsText, answers.rows, answers.cols, formatted);
      } else {
        events := ExecCommand(command, Plugins.Null, formatted);
      }
      UpdateInputValue();
    }

    /** The toolbar's change handler, for a selector of `command` set to `value`. */
    method ChangeSelect(command: string, value: string, formatted: string) returns (events: seq<Plugins.Event>)
      requires Valid()
      modifies this
      ensures Valid() && History.Recorded(State())
      ensures events == CommandTrace(pluginManager.Entries(), command, Plugins.Str(value))
      ensures State() == History.UpdateInputValue(old(State()).(content := formatted))
    {
      events := ExecCommand(command, Plugins.Str(value), formatted);
      UpdateInputValue();
    }

    /** The editor's input handler, after the user's edit left `typed`. */
    method Input(typed: string)
      requires Valid()
      modifies this
      ensures Valid() && History.Recorded(State())
      ensures State() == History.UpdateInputValue(old(State()).(content := typed))
    {
      content := typed;
      UpdateInputValue();
    }

    /** The editor's keydown handler; `formatted` is what a formatting command leaves. */
    method KeyDown(key: string, shift: bool, ctrlOrMeta: bool, formatted: string) returns (events: seq<Plugins.Event>)
      requires Valid()
      modifies this
      ensures Valid()
      ensures Routing.InsertsParagraph(key, shift) ==>
        events == [Plugins.Format("insertParagraph", Plugins.Null)] &&
        State() == History.UpdateInputValue(old(State()).(content := formatted))
      ensures !Routing.InsertsParagraph(key, shift) ==>
        match Routing.ShortcutFor(key, shift, ctrlOrMeta)
        case None => events == [] && State() == old(State())
        case Some(Shortcut(c)) =>
          events == CommandTrace(pluginManager.Entries(), c, Plugins.Null) &&
          State() == old(State()).(content := formatted)
        case Some(UndoKey) => events == [] && State() == History.Undo(old(State()))
        case Some(RedoKey) => events == [] && State() == History.Redo(old(State()))
    {
      events := [];
      if Routing.InsertsParagraph(key, shift) {
        content := formatted;
        events := [Plugins.Format("insertParagraph", Plugins.Null)];
        UpdateInputValue();
        Routing.EnterExcludesShortcut(key, shift, ctrlOrMeta);
      }
      var shortcut := Routing.ShortcutFor(key, shift, ctrlOrMeta);
      if shortcut.Some? {
        match shortcut.value
        case Shortcut(c) =>
          var e := ExecCommand(c, Plugins.Null, formatted);
          events := events + e;
        case UndoKey =>
          Undo();
        case RedoKey =>
          Redo();
      }
    }

    /** `initPlugins`: every plugin registered so far that defines `init` gets the editor. */
    method InitPlugins() returns (events: seq<Plugins.Event>)
      requires Valid()
      ensures events == Plugins.HookCalls(pluginManager.Entries(), Plugins.INIT, [Plugins.EditorHandle])
    {
      events := pluginManager.Init();
    }
  }

  /**
   * `new Wysiii(input, options)`: read the configuration (a malformed button list
   * throws first), then build the editor, whose labels need a known language.
   */
  method Create(inputValue: string, langOption: Option<string>,
                buttonsAttr: Option<string>, parsed: Options.JsonList, colorsAttr: Option<string>)
    returns (r: Result<Wysiii, Options.ConfigError>)
    ensures Truthy(buttonsAttr) && parsed.SyntaxError? ==> r == Failure(Options.MalformedButtonList)
    ensures !(Truthy(buttonsAttr) && parsed.SyntaxError?) && Language(langOption) !in I18n.TABLES ==>
      r == Failure(Options.UnknownLanguage(Language(langOption)))
    ensures !(Truthy(buttonsAttr) && parsed.SyntaxError?) && Language(langOption) in I18n.TABLES ==> r.Success?
    ensures r.Success? ==>
      fresh(r.value) && fresh(r.value.pluginManager) && r.value.Valid() &&
      r.value.State() == History.Initial(StartContent(inputValue)) &&
      r.value.pluginManager.Entries() == [] &&
      r.value.lang == Language(langOption) && r.value.lang in I18n.TABLES &&
      Options.ParseOptions(buttonsAttr, parsed, colorsAttr) == Success(r.value.options)
  {
    var lang := Language(langOption);
    var config := Options.ParseOptions(buttonsAttr, parsed, colorsAttr);
    if config.Failure? {
      return Failure(config.error);
    }
    if I18n.Translate(lang, "bold").None? {
      return Failure(Options.UnknownLanguage(lang));
    }
    var editor := new Wysiii(inputValue, lang, config.value);
    return Success(editor);
  }
}
