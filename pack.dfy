/** The generation result the client receives, stores and renders
    (`ResultData` in the result page), and the text conventions shared by the
    copy buttons and the PDF export. */
module Pack {
  import opened Text

  datatype Option<T> = None | Some(value: T)

  datatype TechQuestion = TechQuestion(question: string, answerOutline: string)

  /** One interview prep pack, with all six fields present. A missing field
      cannot be expressed: the PDF export would treat it as empty, but the
      page's copy texts and lists would throw on a missing list. */
  datatype PrepPack = PrepPack(
    roleSummary: string,
    requiredSkills: seq<string>,
    techQuestions: seq<TechQuestion>,
    hrQuestions: seq<string>,
    resumeImprovements: seq<string>,
    studyPlan: seq<string>)

  /** The dash the export writes in place of an empty text or list. */
  const Placeholder: string := "—"

  /** `text || "—"` */
  function TextOrPlaceholder(text: string): string {
    if text == [] then Placeholder else text
  }

  /** `items?.length ? items : ["—"]` */
  function ItemsOrPlaceholder(items: seq<string>): seq<string> {
    if items == [] then [Placeholder] else items
  }

  /** `${k}. ${text}`: the label of the k-th item of a numbered list. */
  function NumberedLabel(k: nat, text: string): string {
    NatToString(k) + ". " + text
  }

  /** A numbered label adds no line break of its own. */
  lemma NumberedLabelNoNewline(k: nat, text: string)
    requires NoNewline(text)
    ensures NoNewline(NumberedLabel(k, text))
  {
    var d := NatToString(k);
    forall c | c in NumberedLabel(k, text) ensures c != '\n' {
      var i :| 0 <= i < |NumberedLabel(k, text)| && NumberedLabel(k, text)[i] == c;
      if i >= |d| + 2 {
        assert c == text[i - |d| - 2];
      }
    }
  }
}
