/** `parseOptions` and the rule that decides which configured buttons reach the toolbar. */
module Options {

  import opened Wrappers
  import opened Text

  /**
   * What `JSON.parse` makes of the buttons attribute: a list of command names, or a
   * syntax error (the parser itself is not modelled).
   */
  datatype JsonList = Strings(items: seq<string>) | SyntaxError

  datatype Config = Config(buttons: seq<string>, colors: seq<string>)

  /** Why an editor is not created: the source throws from its constructor. */
  datatype ConfigError = MalformedButtonList | UnknownLanguage(lang: string)

  const DEFAULT_BUTTONS: seq<string> := ["bold", "italic", "underline"]

  /** The commands that have a toolbar button (the keys of `buttonConfig`). */
  const BUTTON_COMMANDS: set<string> :=
    {"bold", "italic", "underline", "strikethrough", "list", "orderedList", "link", "image", "code", "table"}

  /**
   * The two data attributes, each absent (`None`) or present. A present, non-empty
   * buttons attribute is parsed as JSON; the colours attribute is split at commas.
   */
  function ParseOptions(buttonsAttr: Option<string>, parsed: JsonList, colorsAttr: Option<string>): (r: Result<Config, ConfigError>)
    ensures r.Failure? <==> Truthy(buttonsAttr) && parsed.SyntaxError?
    ensures r.Success? && !Truthy(buttonsAttr) ==> r.value.buttons == DEFAULT_BUTTONS
    ensures r.Success? && Truthy(buttonsAttr) ==> r.value.buttons == parsed.items
    ensures r.Success? ==> (r.value.colors == [] <==> !Truthy(colorsAttr))
    ensures r.Success? ==> forall i :: 0 <= i < |r.value.colors| ==> ',' !in r.value.colors[i]
    ensures r.Success? && Truthy(colorsAttr) ==> Join(r.value.colors, ',') == colorsAttr.value
  {
    if Truthy(buttonsAttr) && parsed.SyntaxError? then Failure(MalformedButtonList)
    else
      var buttons := if Truthy(buttonsAttr) then parsed.items else DEFAULT_BUTTONS;
      var colors := if Truthy(colorsAttr) then Split(colorsAttr.value, ',') else [];
      if Truthy(colorsAttr) then JoinSplit(colorsAttr.value, ','); Success(Config(buttons, colors))
      else Success(Config(buttons, colors))
  }

  /** `a` is `b` with some elements left out, in the same order. */
  predicate IsSubsequence(a: seq<string>, b: seq<string>)
    decreases |b|
  {
    if a == [] then true
    else if b == [] then false
    else if a[0] == b[0] then IsSubsequence(a[1..], b[1..])
    else IsSubsequence(a, b[1..])
  }

  /** One more name in front: its count goes up by one in the kept list exactly when it has a button. */
  lemma KeptCounts(head: string, tail: seq<string>, kept: seq<string>, defined: set<string>)
    requires forall n :: multiset(kept)[n] == if n in defined then multiset(tail)[n] else 0
    ensures var r := if head in defined then [head] + kept else kept;
      forall n :: multiset(r)[n] == if n in defined then multiset([head] + tail)[n] else 0
  {
    assert multiset([head] + tail) == multiset{head} + multiset(tail);
    assert multiset([head] + kept) == multiset{head} + multiset(kept);
  }

  /**
   * The buttons this toolbar shows: the configured names in their configured order,
   * each one with a button definition (a name in `defined`, the keys of `buttonConfig`,
   * which are `BUTTON_COMMANDS`) kept as often as it is listed, every other name dropped.
   */
  function ToolbarButtons(names: seq<string>, defined: set<string>): (r: seq<string>)
    ensures forall i :: 0 <= i < |r| ==> r[i] in defined
    ensures forall n :: multiset(r)[n] == if n in defined then multiset(names)[n] else 0
    ensures IsSubsequence(r, names)
    decreases |names|
  {
    if names == [] then []
    else
      var head, rest := names[0], ToolbarButtons(names[1..], defined);
      assert names == [head] + names[1..];
      KeptCounts(head, names[1..], rest, defined);
      if head in defined then
        assert ([head] + rest)[1..] == rest;
        [head] + rest
      else
        assert rest != [] ==> rest[0] != head;
        rest
  }

  /** Without a buttons attribute, all three default buttons appear. */
  lemma DefaultButtonsShown()
    ensures ToolbarButtons(DEFAULT_BUTTONS, BUTTON_COMMANDS) == DEFAULT_BUTTONS
  {
    assert DEFAULT_BUTTONS[1..][1..][1..] == [];
  }
}
