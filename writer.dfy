/** `downloadPDF` as it runs: a writer object whose cursor `y`, page count
    and log of drawn items are updated in place by the helpers `addTitle`,
    `addSubTitle`, `addSectionHeader`, `addParagraph`, `addBullets`,
    `addNumbered`, the technical-question and study-plan loops and the
    footer; and the result page's `downloading` flag around the export.
    Every method is proved to leave the cursor where the matching function
    of module Layout says, so the facts of module LayoutFacts hold of what
    the writer draws. */
module Writer {
  import opened Text
  import opened Pack
  import opened Layout
  import opened LayoutFacts

  /** One jsPDF document being written on pages `pageHeight` millimetres tall,
      with `wrap` standing for `splitTextToSize` at the content width. */
  class PdfWriter {
    const pageHeight: int
    const wrap: (Font, string) -> seq<string>
    var y: int
    var pages: nat
    var marks: seq<Mark>

    /** The writer's state as a cursor value. */
    function Cursor(): Doc
      reads this
    {
      Doc(y, pages, marks)
    }

    /** `new jsPDF("p", "mm", "a4")` and `let y = 18`. */
    constructor (pageHeight: int, wrap: (Font, string) -> seq<string>)
      ensures this.pageHeight == pageHeight && this.wrap == wrap
      ensures Cursor() == Start
    {
      this.pageHeight := pageHeight;
      this.wrap := wrap;
      y := Top;
      pages := 1;
      marks := [];
    }

    /** `if (y > limit) { pdf.addPage(); y = 18; }` */
    method NewPageIfPast(limit: int)
      modifies this
      ensures Cursor() == BreakPast(old(Cursor()), limit)
    {
      if y > limit {
        pages := pages + 1;
        y := Top;
      }
    }

    /** `pdf.text(text, margin, y)` (or `pdf.line` for a rule), then `y += dy`. */
    method Put(kind: Kind, text: string, dy: int)
      modifies this
      ensures Cursor() == Draw(old(Cursor()), kind, text, dy)
    {
      marks := marks + [Mark(kind, pages, y, text)];
      y := y + dy;
    }

    method AddTitle(text: string)
      modifies this
      ensures Cursor() == Title(old(Cursor()), text)
    {
      Put(TitleText, text, 10);
    }

    method AddSubTitle(text: string)
      modifies this
      ensures Cursor() == SubTitle(old(Cursor()), text)
    {
      Put(SubtitleText, text, 8);
    }

    method AddSectionHeader(text: string)
      modifies this
      ensures Cursor() == Header(old(Cursor()), pageHeight, text)
    {
      NewPageIfPast(pageHeight - 25);
      Put(HeaderText, text, 7);
      Put(Rule, [], 6);
    }

    /** The `for (const line of lines)` loop: each line on a fresh page when
        the cursor is past `pageHeight - 18`, 6 mm apart. */
    method AddLines(lines: seq<string>)
      modifies this
      ensures Cursor() == Lines(old(Cursor()), pageHeight, lines)
    {
      ghost var d0 := Cursor();
      for i := 0 to |lines|
        invariant Cursor() == Lines(d0, pageHeight, lines[..i])
      {
        assert lines[..i + 1][..i] == lines[..i];
        if y > pageHeight - 18 {
          pages := pages + 1;
          y := Top;
        }
        marks := marks + [Mark(BodyText, pages, y, lines[i])];
        y := y + 6;
      }
      assert lines[..|lines|] == lines;
    }

    method AddParagraph(text: string)
      modifies this
      ensures Cursor() == Paragraph(old(Cursor()), pageHeight, wrap, text)
    {
      AddLines(wrap(BodyFont, text));
      y := y + 2;
    }

    method AddBullets(items: seq<string>)
      modifies this
      ensures Cursor() == Bullets(old(Cursor()), pageHeight, wrap, items)
    {
      ghost var d0 := Cursor();
      for i := 0 to |items|
        invariant Cursor() == BulletItems(d0, pageHeight, wrap, items[..i])
      {
        assert items[..i + 1][..i] == items[..i];
        AddLines(wrap(BodyFont, BulletPrefix + items[i]));
      }
      assert items[..|items|] == items;
      y := y + 2;
    }

    method AddNumbered(items: seq<string>)
      modifies this
      ensures Cursor() == Numbered(old(Cursor()), pageHeight, wrap, items)
    {
      ghost var d0 := Cursor();
      for i := 0 to |items|
        invariant Cursor() == NumberedItems(d0, pageHeight, wrap, items[..i])
      {
        assert items[..i + 1][..i] == items[..i];
        AddLines(wrap(BodyFont, NumberedLabel(i + 1, items[i])));
        y := y + 1;
      }
      assert items[..|items|] == items;
      y := y + 2;
    }

    /** The `forEach` over the technical questions. */
    method AddTechQuestions(questions: seq<TechQuestion>)
      modifies this
      ensures Cursor() == TechBlocks(old(Cursor()), pageHeight, wrap, questions)
    {
      ghost var d0 := Cursor();
      for i := 0 to |questions|
        invariant Cursor() == TechBlocks(d0, pageHeight, wrap, questions[..i])
      {
        assert questions[..i + 1][..i] == questions[..i];
        NewPageIfPast(pageHeight - 28);
        AddLines(wrap(QuestionFont, NumberedLabel(i + 1, questions[i].question)));
        AddLines(wrap(BodyFont, AnswerPrefix + questions[i].answerOutline));
        y := y + 3;
      }
      assert questions[..|questions|] == questions;
    }

    /** The `forEach` over the study plan. */
    method AddStudyPlan(steps: seq<string>)
      modifies this
      ensures Cursor() == PlanEntries(old(Cursor()), pageHeight, wrap, steps)
    {
      ghost var d0 := Cursor();
      for i := 0 to |steps|
        invariant Cursor() == PlanEntries(d0, pageHeight, wrap, steps[..i])
      {
        assert steps[..i + 1][..i] == steps[..i];
        NewPageIfPast(pageHeight - 18);
        Put(DayLabel, DayLabelText(i + 1), 6);
        AddLines(wrap(BodyFont, steps[i]));
        y := y + 3;
      }
      assert steps[..|steps|] == steps;
    }

    method AddFooter()
      modifies this
      ensures Cursor() == Footer(old(Cursor()), pageHeight)
    {
      NewPageIfPast(pageHeight - 18);
      y := y + 6;
      Put(Rule, [], 8);
      marks := marks + [Mark(FooterText, pages, y, FooterLine)];
    }

    /** The cover and the six sections, in the order `downloadPDF` writes them. */
    method AddPack(pack: PrepPack, generatedOn: string)
      modifies this
      ensures Cursor() == Sections(Cover(old(Cursor()), generatedOn), pageHeight, wrap, pack)
    {
      AddTitle(TitleLine);
      AddSubTitle(SubtitleLine);
      AddSubTitle(GeneratedOnPrefix + generatedOn);
      y := y + 6;
      AddSectionHeader(SectionTitles[0]);
      AddParagraph(TextOrPlaceholder(pack.roleSummary));
      AddSectionHeader(SectionTitles[1]);
      AddBullets(ItemsOrPlaceholder(pack.requiredSkills));
      AddSectionHeader(SectionTitles[2]);
      AddTechQuestions(pack.techQuestions);
      AddSectionHeader(SectionTitles[3]);
      AddNumbered(ItemsOrPlaceholder(pack.hrQuestions));
      AddSectionHeader(SectionTitles[4]);
      AddBullets(ItemsOrPlaceholder(pack.resumeImprovements));
      AddSectionHeader(SectionTitles[5]);
      AddStudyPlan(pack.studyPlan);
    }
  }

  /** The document `downloadPDF` builds for a pack, from a fresh writer to
      the footer: every text of the pack in order under its header, on
      pages where nothing crosses a margin and items on a page are at least
      6 mm apart, in reading order. */
  method RenderPack(pack: PrepPack, pageHeight: int, wrap: (Font, string) -> seq<string>, generatedOn: string)
    returns (doc: Doc)
    ensures doc == Export(pack, pageHeight, wrap, generatedOn)
    ensures Roomy(pageHeight) ==>
      && Texts(doc.marks) == ExportContent(pack, wrap, generatedOn)
      && HeaderTexts(doc.marks) == SectionTitles
      && doc.pages >= 1 && WellPlaced(doc.marks, doc.pages, pageHeight)
  {
    var pdf := new PdfWriter(pageHeight, wrap);
    pdf.AddPack(pack, generatedOn);
    pdf.AddFooter();
    doc := pdf.Cursor();
    if Roomy(pageHeight) {
      ExportDrawsContent(pack, pageHeight, wrap, generatedOn);
      ExportWellPlaced(pack, pageHeight, wrap, generatedOn);
    }
  }

  const ExportFailedMessage: string := "Professional PDF export failed. Please try again."

  /** What the result page does around an export, in order: set the
      `downloading` flag, save the file or alert. */
  datatype PageEffect = SetDownloading(on: bool) | SavePdf(name: string, doc: Doc) | Alert(message: string)

  /** The effects of one `downloadPDF` call on a loaded pack: the flag on,
      then the saved file (or, when jsPDF throws part-way, the alert and no
      file), then the flag off in `finally`. */
  function DownloadTrace(pack: PrepPack, pageHeight: int, wrap: (Font, string) -> seq<string>,
                         generatedOn: string, fails: bool): seq<PageEffect>
  {
    [SetDownloading(true)]
    + (if fails then [Alert(ExportFailedMessage)]
       else [SavePdf(FileName, Export(pack, pageHeight, wrap, generatedOn))])
    + [SetDownloading(false)]
  }

  /** An export raises `downloading` first and lowers it last whatever
      happens; it saves exactly one file, under the fixed name, exactly when
      nothing throws, and that file holds the complete document: every
      section, in order, on well-placed pages. */
  lemma DownloadTraceShape(pack: PrepPack, pageHeight: int, wrap: (Font, string) -> seq<string>,
                           generatedOn: string, fails: bool)
    requires Roomy(pageHeight)
    ensures var t := DownloadTrace(pack, pageHeight, wrap, generatedOn, fails);
      && |t| == 3
      && t[0] == SetDownloading(true)
      && t[2] == SetDownloading(false)
      && (t[1].SavePdf? <==> !fails)
      && (t[1].Alert? <==> fails)
      && (fails ==> t[1].message == ExportFailedMessage)
      && (!fails ==>
            && t[1].name == FileName
            && Texts(t[1].doc.marks) == ExportContent(pack, wrap, generatedOn)
            && HeaderTexts(t[1].doc.marks) == SectionTitles
            && WellPlaced(t[1].doc.marks, t[1].doc.pages, pageHeight))
  {
    var doc := Export(pack, pageHeight, wrap, generatedOn);
    ExportDrawsContent(pack, pageHeight, wrap, generatedOn);
    ExportWellPlaced(pack, pageHeight, wrap, generatedOn);
    SavedDocument(DownloadTrace(pack, pageHeight, wrap, generatedOn, fails), doc, fails);
  }

  lemma SavedDocument(t: seq<PageEffect>, doc: Doc, fails: bool)
    requires t == [SetDownloading(true)]
                 + (if fails then [Alert(ExportFailedMessage)] else [SavePdf(FileName, doc)])
                 + [SetDownloading(false)]
    ensures |t| == 3 && t[0] == SetDownloading(true) && t[2] == SetDownloading(false)
    ensures fails ==> t[1] == Alert(ExportFailedMessage)
    ensures !fails ==> t[1] == SavePdf(FileName, doc)
  {
  }

  /** The result page: the pack loaded from storage (none until it loads),
      the `downloading` flag and the log of what the page has done. */
  class ResultPage {
    var data: Option<PrepPack>
    var downloading: bool
    var effects: seq<PageEffect>

    constructor (data: Option<PrepPack>)
      ensures this.data == data && !downloading && effects == []
    {
      this.data := data;
      downloading := false;
      effects := [];
    }

    /** `downloadPDF`, with `fails` telling whether jsPDF throws. */
    method DownloadPdf(pageHeight: int, wrap: (Font, string) -> seq<string>, generatedOn: string, fails: bool)
      modifies this`downloading, this`effects
      ensures data.None? ==> downloading == old(downloading) && effects == old(effects)
      ensures data.Some? ==>
        && !downloading
        && effects == old(effects) + DownloadTrace(data.value, pageHeight, wrap, generatedOn, fails)
    {
      if data.None? {
        return;
      }
      downloading := true;
      effects := effects + [SetDownloading(true)];
      if fails {
        effects := effects + [Alert(ExportFailedMessage)];
      } else {
        var doc := RenderPack(data.value, pageHeight, wrap, generatedOn);
        effects := effects + [SavePdf(FileName, doc)];
      }
      downloading := false;
      effects := effects + [SetDownloading(false)];
    }
  }
}
