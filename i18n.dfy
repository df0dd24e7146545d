/** The editor's label translations and the `t(key)` lookup with its fallback rule. */
module I18n {

  import opened Wrappers

  /** The translation tables, one per supported language (wysiii.js:2-55). */
  const TABLES: map<string, map<string, string>> := map[
    "fr" := map[
      "bold" := "Gras",
      "italic" := "Italique",
      "underline" := "Souligné",
      "strikethrough" := "Barré",
      "list" := "Liste à puces",
      "orderedList" := "Liste numérotée",
      "link" := "Insérer un lien",
      "image" := "Insérer une image",
      "code" := "Afficher le code source",
      "table" := "Insérer un tableau",
      "fontSize" := "Taille de police",
      "selectFontSize" := "Sélectionner la taille de police",
      "paragraphStyle" := "Style de paragraphe",
      "selectParagraphStyle" := "Sélectionner le style de paragraphe",
      "paragraph" := "Paragraphe",
      "heading1" := "Titre 1",
      "heading2" := "Titre 2",
      "heading3" := "Titre 3",
      "quote" := "Citation",
      "editLink" := "Modifier le lien",
      "deleteLink" := "Supprimer le lien",
      "openInNewTab" := "Ouvrir dans un nouvel onglet",
      "enterNewUrl" := "Entrez la nouvelle URL :",
      "textColor" := "Couleur du texte"
    ],
    "en" := map[
      "bold" := "Bold",
      "italic" := "Italic",
      "underline" := "Underline",
      "strikethrough" := "Strikethrough",
      "list" := "Bullet list",
      "orderedList" := "Numbered list",
      "link" := "Insert link",
      "image" := "Insert image",
      "code" := "View source code",
      "table" := "Insert table",
      "fontSize" := "Font size",
      "selectFontSize" := "Select font size",
      "paragraphStyle" := "Paragraph style",
      "selectParagraphStyle" := "Select paragraph style",
      "paragraph" := "Paragraph",
      "heading1" := "Heading 1",
      "heading2" := "Heading 2",
      "heading3" := "Heading 3",
      "quote" := "Quote",
      "editLink" := "Edit link",
      "deleteLink" := "Delete link",
      "openInNewTab" := "Open in new tab",
      "enterNewUrl" := "Enter new URL:",
      "textColor" := "Text color"
    ]
  ]

  /**
   * `t(key)` for the editor's language. An unsupported language has no table, and
   * the lookup then fails (the source raises a TypeError): `None`. Otherwise a
   * missing or empty translation falls back to the key itself.
   */
  function Translate(lang: string, key: string): (r: Option<string>)
    ensures r.None? <==> lang !in TABLES
    ensures r.Some? ==> r.value == key || (key in TABLES[lang] && r.value == TABLES[lang][key])
    ensures r.Some? && key !in TABLES[lang] ==> r.value == key
  {
    if lang !in TABLES then None
    else if key in TABLES[lang] && TABLES[lang][key] != "" then Some(TABLES[lang][key])
    else Some(key)
  }

  /** Every key that has a table entry is translated, never echoed back. */
  lemma KnownKeyTranslated(lang: string, key: string)
    requires lang in TABLES && key in TABLES[lang]
    ensures Translate(lang, key) == Some(TABLES[lang][key])
  {
  }
}
