# Wysiii editing core, modelled in Dafny

Wysiii is a small rich-text widget. It attaches to a text input, shows a toolbar and an
editable surface, turns toolbar clicks, selector changes and keyboard shortcuts into
browser formatting commands, and mirrors the surface's markup back into the input. This
project models the part of `wysiii.js` that is not DOM construction:

- the editor's recording state: the content (`editor.innerHTML`), the rich/source mode
  (`contentEditable`), the mirrored `input.value`, the snapshot log `history` and its
  cursor `historyIndex`. These are pure transitions in module `History` and a class
  `Editor.Wysiii` whose methods are proved to perform them;
- the plugin registry `WysiiiPluginManager` (`Plugins.PluginManager`): plugins kept by
  name in JavaScript's key-insertion order, and the hook calls made by `init` and `exec`;
- `execCommand`'s dispatch order (before-hooks, the formatting call, after-hooks, focus),
  recorded as a trace of events;
- the event handlers for toolbar clicks, selector changes, typing and key presses;
- the pure helpers: the `insertTable` HTML builder (`Table`), `getColorName` (`Colors`),
  `t` (`I18n`), `parseOptions` and the toolbar button filter (`Options`), and the
  click and key routing decisions (`Routing`).

Modelling choices:

- The browser is outside the model. Whatever `document.execCommand` or the user's typing
  does to the content is a parameter (`formatted`, `typed`). Hook calls, formatting
  calls and `focus()` are returned as `Plugins.Event` values, so their order can be
  stated. A plugin is reduced to the set of hook names it defines as functions.
- Reading back an assigned `innerHTML` or `textContent` is assumed to give the same
  string. Under that assumption, toggling the source view keeps the content string.
- `prompt` answers are parameters (`Routing.Prompts`): `None` means cancelled. The
  number of iterations that `i < rows` allows after JavaScript's number coercion is
  given as a `nat`.
- `JSON.parse` of the buttons attribute is a foreign call. Its outcome is a parameter
  (`Options.JsonList`).
- `Editor.Create` is the constructor with its error paths. A malformed button list fails
  first. Then an unknown language fails, because `createEditor` calls `t`, which throws
  when the language has no table. The class constructor is the success path.

How history is recorded, as the code does it:

- A linear undo/redo history only moves the cursor. In this code, `undo` calls
  `updateInputValue`, which records a new snapshot and truncates the log.
- `execCommand` itself does not record. The click and change handlers record
  afterwards. The keydown handler itself records nothing for the bold, italic and
  underline shortcuts.

Because every recording leaves `|history| == historyIndex + 1`, the `redo` guard never
holds in any reachable state (`History.RedoNeverFires`). A second consecutive undo
changes nothing (`History.UndoIdempotent`).

## Model

| member | source | states |
|---|---|---|
| `History.SaveToHistory` | wysiii.js:344-348 | the cursor advances by one; entries before the new cursor are kept; the current content becomes the last entry; at the tail this appends exactly one entry and leaves the cursor on it |
| `History.UpdateInputValue` | wysiii.js:309-312 | afterwards the input mirrors the content, the content is the last snapshot and the cursor is at the tail; at the tail exactly one entry is appended |
| `History.Initial` | wysiii.js:90-92 | after construction the log is the single initial content, the cursor is 0, and the input and the log agree with the editor |
| `History.Undo` | wysiii.js:350-356 | at cursor 0 nothing changes; otherwise the content and input become the previous snapshot, the cursor stays put, earlier entries are kept, and the entry undone from is overwritten by the previous one |
| `History.Redo` | wysiii.js:358-364 | at the tail nothing changes; before the tail the cursor moves two places and the next snapshot is recorded again |
| `History.ToggleSource` | wysiii.js:298-307 | the mode flips, the content is kept, and exactly one snapshot is recorded |
| `History.UndoIdempotent` | wysiii.js:350-356 | two undos in a row give the same state as one |
| `History.ToggleTwice` | wysiii.js:298-307 | two toggles return to the starting mode and content, with two new snapshots |
| `History.CodeClickRecordsTwice` | wysiii.js:223-230 | a click on the `code` button flips the mode and records two snapshots |
| `History.RunStaysAtTail` | wysiii.js:344-348 | every step keeps the cursor on the last entry |
| `History.RedoNeverFires` | wysiii.js:358-364 | from construction on, after any steps, `redo` changes nothing |
| `History.UndoThenRedoLoses` | wysiii.js:350-364 | when the previous snapshot differs from the current one, undo followed by redo does not restore the content |
| `History.UndoThenRedoExample` | wysiii.js:350-364 | editing "a" to "b", recording, then undo and redo leaves the editor showing "a" |
| `History.IntendedUndo` | wysiii.js:350-356 | intended undo: the log is unchanged and the cursor moves back one place unless it is at 0 |
| `History.IntendedRedo` | wysiii.js:358-364 | intended redo: the log is unchanged and the cursor moves forward one place unless it is at the tail |
| `History.UndoTimesMoves` | wysiii.js:350-356 | k intended undos move the cursor back k places and show that snapshot |
| `History.RedoTimesMoves` | wysiii.js:358-364 | k intended redos move the cursor forward k places and show that snapshot |
| `History.UndoRedoRoundTrip` | wysiii.js:350-364 | with the intended undo and redo, k undos followed by k redos restore the state exactly |
| `Plugins.Put` | wysiii.js:63-65 | after `plugins[name] = plugin` the name holds that plugin; the key order is unchanged for a known name and gains the name at the end for a new one; every other entry was there before |
| `Plugins.PutFresh` | wysiii.js:63-65 | registering a new name puts that plugin last |
| `Plugins.PutExisting` | wysiii.js:63-65 | registering an existing name replaces only that entry and keeps its position |
| `Plugins.HookCalls` | wysiii.js:75-81 | there are no more calls than plugins, and each call is to the given hook with the given arguments, on a registered plugin |
| `Plugins.HookCalledOnce` | wysiii.js:75-81 | each plugin that defines the hook is called exactly once; every other plugin is never called |
| `Plugins.HookCallsInOrder` | wysiii.js:68-81 | the calls follow registration order |
| `Plugins.PluginManager.constructor` | wysiii.js:58-61 | a new manager has no plugins |
| `Plugins.PluginManager.Entries` | wysiii.js:68 | iteration order is the key-insertion order |
| `Plugins.PluginManager.Register` | wysiii.js:63-65 | the registry becomes `Put(old, name, plugin)`: a new name is appended; an existing name is replaced in place and every other entry is unchanged |
| `Plugins.PluginManager.Exec` | wysiii.js:75-81 | the calls made are exactly `HookCalls` over the registry in order |
| `Plugins.PluginManager.Init` | wysiii.js:67-73 | the calls made are exactly the `init(editor)` calls of `HookCalls` over the registry |
| `Editor.CommandTrace` | wysiii.js:291-296 | `execCommand` makes one call per before-hook and after-hook plugin plus two more; the last is focus, and every formatting call is the requested command with its value |
| `Editor.CommandTraceOrder` | wysiii.js:291-296 | `execCommand` makes exactly the before-hook calls `HookCalls(es, 'beforeExecCommand', args)`, then exactly one formatting call, then exactly the after-hook calls, then focus |
| `Editor.Wysiii.constructor` | wysiii.js:85-94 | the editor starts in rich mode with the input's value, or the placeholder when it is empty, as its single snapshot, and with an empty registry |
| `Editor.Wysiii.SaveToHistory` | wysiii.js:344-348 | the fields change as `History.SaveToHistory` says |
| `Editor.Wysiii.UpdateInputValue` | wysiii.js:309-312 | the fields change as `History.UpdateInputValue` says |
| `Editor.Wysiii.Undo` | wysiii.js:350-356 | the fields change as `History.Undo` says |
| `Editor.Wysiii.Redo` | wysiii.js:358-364 | the fields change as `History.Redo` says |
| `Editor.Wysiii.ToggleSource` | wysiii.js:298-307 | the fields change as `History.ToggleSource` says |
| `Editor.Wysiii.ExecCommand` | wysiii.js:291-296 | only the content changes and nothing is recorded; the events are `CommandTrace` over the registry |
| `Editor.Wysiii.InsertTable` | wysiii.js:327-342 | when both answers are non-empty, `insertHTML` is dispatched with `TableHtml(rows, cols)`; otherwise nothing happens |
| `Editor.Wysiii.ClickButton` | wysiii.js:213-232 | `code` toggles and records twice; other buttons dispatch what `ClickDispatch` decides, if anything, and then record once |
| `Editor.Wysiii.ChangeSelect` | wysiii.js:234-239 | a selector change dispatches its command with the selected value, then records |
| `Editor.Wysiii.Input` | wysiii.js:241-243 | a user edit is recorded and mirrored |
| `Editor.Wysiii.KeyDown` | wysiii.js:245-276 | Enter without Shift inserts a paragraph without hooks and records; Ctrl/Meta with b, i or u dispatches the command, and the handler itself does not record; Ctrl/Meta with z undoes, or redoes when Shift is held |
| `Editor.Wysiii.InitPlugins` | wysiii.js:435-437 | every plugin that defines `init` gets one call, in registration order |
| `Editor.Create` | wysiii.js:85-101 | a malformed button list fails; otherwise an unknown language fails; otherwise a fresh valid editor with the parsed options is returned, and one is returned whenever neither failure applies |
| `Editor.Language` | wysiii.js:87 | `options.lang \|\| 'fr'`: a non-empty language, the given one when it is truthy, else French |
| `Editor.StartContent` | wysiii.js:198 | the editor never starts empty: the input's value when it has one, and the placeholder exactly when it is empty |
| `Table.BuildTable` | wysiii.js:331-339 | the nested loops build exactly `TableHtml(rows, cols)` |
| `Table.RowHtml` | wysiii.js:333-337 | a row is 9 + 13·cols characters long, opens with `<tr>` and closes with `</tr>` |
| `Table.TableHtml` | wysiii.js:331-339 | the table opens with the table and body tags, closes with their end tags, and is only those tags when there are no rows |
| `Table.RepeatLength` | wysiii.js:332-338 | n copies of a string are n times as long |
| `Table.RepeatAt` | wysiii.js:332-338 | copy k of the repeated string sits at offset k times its length |
| `Table.TableLength` | wysiii.js:331-339 | the table is 41 + rows·(9 + 13·cols) characters long |
| `Table.TableRowAt` | wysiii.js:332-338 | row i of the table is a row of `cols` cells, at its fixed offset |
| `Colors.GetColorName` | wysiii.js:314-325 | the result is one of the seven names or the colour as given; a name is returned only for that colour's upper-cased key |
| `Colors.NameIgnoresCase` | wysiii.js:324 | spellings differing only in case get the same name |
| `Colors.NameExamples` | wysiii.js:314-325 | `#ff0000` is "Rouge"; `#abcdef` comes back as given, not upper-cased |
| `I18n.Translate` | wysiii.js:103-105 | an unsupported language fails; otherwise the result is the translation or, when there is none, the key |
| `I18n.KnownKeyTranslated` | wysiii.js:103-105 | a key with a table entry is translated, never echoed back |
| `Options.ParseOptions` | wysiii.js:96-101 | a malformed non-empty button list fails; no list gives bold, italic and underline; the colours are comma-free pieces that join back to the attribute, and there are none without the attribute |
| `Options.ToolbarButtons` | wysiii.js:131-142 | the toolbar keeps exactly the names that have a button definition (`defined`, the keys of `buttonConfig`), in order and with their multiplicities |
| `Options.DefaultButtonsShown` | wysiii.js:131-142 | with the default list, the toolbar shows bold, italic and underline |
| `Routing.ClickDispatch` | wysiii.js:216-229 | `link` and `image` dispatch the URL only for a non-empty answer; `code` dispatches nothing; `table` dispatches the table only for two non-empty answers; any other button dispatches itself with `null` |
| `Routing.InsertsParagraph` | wysiii.js:246 | only an unshifted Enter key inserts a paragraph |
| `Routing.ShortcutFor` | wysiii.js:252-275 | a shortcut fires only with Ctrl or Meta on a one-letter key, redo only with Shift, and the only formatting commands it gives are bold, italic and underline |
| `Routing.EnterExcludesShortcut` | wysiii.js:246-275 | a key press that inserts a paragraph triggers no shortcut |
| `Routing.ShortcutSpec` | wysiii.js:252-275 | shortcuts ignore letter case, need Ctrl or Meta and a one-letter key; z gives undo, or redo with Shift; b, i and u give bold, italic and underline; every other key gives no shortcut |
| `Text.Lower` | wysiii.js:253 | `toLowerCase` leaves no upper-case letter and keeps each character up to case |
| `Text.Upper` | wysiii.js:324 | `toUpperCase` leaves no lower-case letter, changes only lower-case letters, and keeps each character up to case, so a lower-case letter becomes its capital |
| `Text.Split` | wysiii.js:99 | `split(',')` gives at least one piece and no piece holds the separator |
| `Text.JoinSplit` | wysiii.js:99 | joining the pieces of a split gives back the string |
| `Text.SplitJoin` | wysiii.js:99 | splitting a join of separator-free pieces gives back the pieces |

## Findings

| source | as written | input that shows it | evidently intended | confidence | as-written member | corrected member |
|---|---|---|---|---|---|---|
| wysiii.js:350-364 | `undo` records the restored snapshot through `updateInputValue`, overwriting the entry it left, so the `redo` guard `historyIndex < history.length - 1` can never hold | initial content "a", edit to "b" and record, then Ctrl+Z and Ctrl+Shift+Z: the editor shows "a" and "b" is gone | undo and redo move the cursor and load the snapshot without recording, so k undos followed by k redos restore the state | high (not executed) | `History.UndoThenRedoLoses` | `History.UndoRedoRoundTrip` |

`History.IntendedUndo` and `History.IntendedRedo` are the corrected definitions. The editor
class keeps the behaviour as written, since it models the shipped code.

## Left out

- The `input` event a browser fires at the editing host when `document.execCommand` changes it (handled at wysiii.js:241-243 by `updateInputValue`): it is the separate `Editor.Wysiii.Input` step, not part of the `ClickButton`, `KeyDown`, `ChangeSelect` or `ExecCommand` contracts. So a formatting shortcut records once the browser fires that event, and a toolbar formatting click records twice. `History.RunStaysAtTail` and `History.RedoNeverFires` allow any sequence of steps, so they still cover these runs.
- DOM construction, styling, ARIA attributes and icons (`createEditor`, wysiii.js:107-207, except the button filter): rendering only.
- `document.execCommand` itself, `focus()` and which command names the browser recognises (the `list` and `orderedList` buttons pass names that are not browser commands): browser primitives. Their effect on the content is a parameter.
- HTML parsing, serialisation and escaping by `innerHTML`/`textContent`: outside the model, and read-back is the identity.
- History.ToggleSource: keeps the content string unchanged. In a browser, the snapshot recorded in source view is the HTML-escaped markup, because reading back is taken as the identity here.
- `prompt` and JavaScript's number coercion of its answers: the answers and the iteration counts are parameters.
- `JSON.parse`: its outcome is a parameter, either a syntax error or an array of strings. A parsed value that is not an array fails in `forEach` (wysiii.js:131), and an array with non-string items has them skipped or coerced to a key (wysiii.js:132-133); neither is modelled.
- `announceForScreenReader` and its timer (wysiii.js:368-377), listener registration, `closest('button')` and the `SELECT` tag test, and the `DOMContentLoaded` bootstrap (wysiii.js:441-447): event and timer plumbing.
- The link context menu `showLinkMenu`, `editLink`, `deleteLink` (wysiii.js:379-433): live DOM surgery and UI.
- Plugin hook bodies, exceptions thrown by hooks (which abort the rest of a dispatch), and plugins calling back into the editor during `init` or `exec`: foreign code. Hooks are assumed to leave the editor and registry unchanged.
- JavaScript prototype properties (a key such as `toString` found on every object) in the translation, button and colour tables and in the plugin registry, and the ordering of integer-like keys in `Object.values`: plugin names are assumed non-numeric, and a name such as `__proto__` is assumed not to be registered. `register('__proto__', plugin)` (wysiii.js:64) sets the object's prototype, so `Object.values` never yields it, whereas `Plugins.Put` appends it like any other name.
- Unicode case mapping in `toUpperCase`/`toLowerCase`: ASCII letters only.
- The example plugin `myPlugin` (wysiii.js:450-460): it only logs to the console.
