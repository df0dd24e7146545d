/** `getColorName`: the French name of one of seven colours, or the colour itself. */
module Colors {

  import opened Text

  const COLOR_NAMES: map<string, string> := map[
    "#000000" := "Noir",
    "#FF0000" := "Rouge",
    "#00FF00" := "Vert",
    "#0000FF" := "Bleu",
    "#FFFF00" := "Jaune",
    "#FF00FF" := "Magenta",
    "#00FFFF" := "Cyan"
  ]

  /**
   * The lookup is made on the upper-cased colour, but the fallback is the colour as
   * given: a name only for one of the seven colours, and then the name of that colour.
   */
  function GetColorName(hexColor: string): (r: string)
    ensures r in COLOR_NAMES.Values || r == hexColor
    ensures r != hexColor ==> Upper(hexColor) in COLOR_NAMES && r == COLOR_NAMES[Upper(hexColor)]
  {
    var key := Upper(hexColor);
    if key in COLOR_NAMES && COLOR_NAMES[key] != "" then COLOR_NAMES[key] else hexColor
  }

  /** Two spellings of a colour that differ only in letter case get the same name. */
  lemma NameIgnoresCase(a: string, b: string)
    requires Upper(a) == Upper(b) && Upper(a) in COLOR_NAMES
    ensures GetColorName(a) == GetColorName(b) == COLOR_NAMES[Upper(a)]
  {
  }

  /** A lower-case spelling is found; an unknown colour comes back exactly as given, not upper-cased. */
  lemma NameExamples()
    ensures GetColorName("#ff0000") == "Rouge"
    ensures GetColorName("#abcdef") == "#abcdef"
  {
    assert Upper("#ff0000") == "#FF0000";
    assert Upper("#abcdef") == "#ABCDEF";
  }
}
