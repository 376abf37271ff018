/** The PDF export of the result page (`downloadPDF`) as a document cursor:
    a vertical position `y` in millimetres, the number of pages added so far
    and the log of everything drawn, each item with the page and the height
    it was drawn at. Every emission primitive first compares `y` with a
    bottom threshold, adds a page and returns to the top margin when `y` is
    past it, then draws and advances `y` by fixed steps.

    This module gives each primitive as a function on cursor values; the
    class in module Writer performs the same steps in place. Line wrapping
    (`splitTextToSize`) is a parameter: any function from a font and a text
    to the lines it is broken into. */
module Layout {
  import opened Text
  import opened Pack

  /** The font in effect when a text is wrapped (wrapping depends on it). */
  datatype Font = Font(bold: bool, size: nat)

  const BodyFont: Font := Font(false, 11)
  const QuestionFont: Font := Font(true, 12)

  /** What a drawn item is, by the primitive that drew it. `Rule` is the
      horizontal line under a section header and above the footer. */
  datatype Kind = TitleText | SubtitleText | HeaderText | BodyText | DayLabel | FooterText | Rule

  /** One drawn item: its kind, the page (numbered from 1) and height it was
      drawn at, and its text (empty for a rule). */
  datatype Mark = Mark(kind: Kind, page: nat, y: int, text: string)

  /** The cursor: current height, pages so far, items drawn so far. */
  datatype Doc = Doc(y: int, pages: nat, marks: seq<Mark>)

  /** The top margin, where the cursor starts and returns after a page break. */
  const Top: int := 18

  const TitleLine: string := "PrepPilot — Interview Prep Pack"
  const SubtitleLine: string := "Generated using PydanticAI + OpenRouter | Full Stack AI Agent"
  const GeneratedOnPrefix: string := "Generated on: "
  const AnswerPrefix: string := "Answer outline: "
  const BulletPrefix: string := "• "
  const FooterLine: string := "Generated by PrepPilot • Full Stack AI Agent (FastAPI + PydanticAI + Next.js)"
  const FileName: string := "PrepPilot_Interview_Prep_Pack.pdf"

  const SectionTitles: seq<string> := [
    "1) Role Summary",
    "2) Required Skills",
    "3) Technical Interview Questions (with Answer Outlines)",
    "4) HR Questions",
    "5) Resume Improvements",
    "6) 7-Day Study Plan"
  ]

  /** A new document: one page, cursor at the top margin, nothing drawn. */
  const Start: Doc := Doc(Top, 1, [])

  // ---------------------------------------------------------------------
  // Primitives

  /** `if (y > limit) { pdf.addPage(); y = 18; }` */
  function BreakPast(d: Doc, limit: int): Doc {
    if d.y > limit then d.(y := Top, pages := d.pages + 1) else d
  }

  /** Draw an item at the cursor on the current page, then move down `dy`. */
  function Draw(d: Doc, kind: Kind, text: string, dy: int): Doc {
    d.(marks := d.marks + [Mark(kind, d.pages, d.y, text)], y := d.y + dy)
  }

  function Skip(d: Doc, dy: int): Doc {
    d.(y := d.y + dy)
  }

  /** `addTitle` */
  function Title(d: Doc, text: string): Doc {
    Draw(d, TitleText, text, 10)
  }

  /** `addSubTitle` */
  function SubTitle(d: Doc, text: string): Doc {
    Draw(d, SubtitleText, text, 8)
  }

  /** The cover: title, the two subtitles and 6 mm of space. */
  function Cover(d: Doc, generatedOn: string): Doc {
    Skip(SubTitle(SubTitle(Title(d, TitleLine), SubtitleLine), GeneratedOnPrefix + generatedOn), 6)
  }

  /** `addSectionHeader`: break past `pageHeight - 25`, the header text,
      7 mm down, a rule, 6 mm down. */
  function Header(d: Doc, h: int, text: string): Doc {
    Draw(Draw(BreakPast(d, h - 25), HeaderText, text, 7), Rule, [], 6)
  }

  /** One wrapped line: break past `pageHeight - 18`, draw, 6 mm down. */
  function Line(d: Doc, h: int, line: string): Doc {
    Draw(BreakPast(d, h - 18), BodyText, line, 6)
  }

  /** The `for (const line of lines)` loop every primitive runs. */
  function Lines(d: Doc, h: int, lines: seq<string>): Doc
    decreases |lines|
  {
    if lines == [] then d else Line(Lines(d, h, lines[..|lines| - 1]), h, lines[|lines| - 1])
  }

  /** `addParagraph` */
  function Paragraph(d: Doc, h: int, wrap: (Font, string) -> seq<string>, text: string): Doc {
    Skip(Lines(d, h, wrap(BodyFont, text)), 2)
  }

  /** The item loop of `addBullets`. */
  function BulletItems(d: Doc, h: int, wrap: (Font, string) -> seq<string>, items: seq<string>): Doc
    decreases |items|
  {
    if items == [] then d
    else Lines(BulletItems(d, h, wrap, items[..|items| - 1]), h, wrap(BodyFont, BulletPrefix + items[|items| - 1]))
  }

  /** `addBullets` */
  function Bullets(d: Doc, h: int, wrap: (Font, string) -> seq<string>, items: seq<string>): Doc {
    Skip(BulletItems(d, h, wrap, items), 2)
  }

  /** The `forEach` of `addNumbered`: item k (from 1) is "k. item", then 1 mm. */
  function NumberedItems(d: Doc, h: int, wrap: (Font, string) -> seq<string>, items: seq<string>): Doc
    decreases |items|
  {
    if items == [] then d
    else
      var before := NumberedItems(d, h, wrap, items[..|items| - 1]);
      Skip(Lines(before, h, wrap(BodyFont, NumberedLabel(|items|, items[|items| - 1]))), 1)
  }

  /** `addNumbered` */
  function Numbered(d: Doc, h: int, wrap: (Font, string) -> seq<string>, items: seq<string>): Doc {
    Skip(NumberedItems(d, h, wrap, items), 2)
  }

  /** Technical question k: break past `pageHeight - 28`, the wrapped
      "k. question" in bold, the wrapped "Answer outline: ...", then 3 mm. */
  function TechBlock(d: Doc, h: int, wrap: (Font, string) -> seq<string>, k: nat, q: TechQuestion): Doc {
    var asked := Lines(BreakPast(d, h - 28), h, wrap(QuestionFont, NumberedLabel(k, q.question)));
    Skip(Lines(asked, h, wrap(BodyFont, AnswerPrefix + q.answerOutline)), 3)
  }

  function TechBlocks(d: Doc, h: int, wrap: (Font, string) -> seq<string>, questions: seq<TechQuestion>): Doc
    decreases |questions|
  {
    if questions == [] then d
    else TechBlock(TechBlocks(d, h, wrap, questions[..|questions| - 1]), h, wrap, |questions|, questions[|questions| - 1])
  }

  /** "Day k" */
  function DayLabelText(k: nat): string {
    "Day " + NatToString(k)
  }

  /** Study-plan entry k: break past `pageHeight - 18`, "Day k", 6 mm, the
      wrapped step, then 3 mm. */
  function PlanEntry(d: Doc, h: int, wrap: (Font, string) -> seq<string>, k: nat, step: string): Doc {
    Skip(Lines(Draw(BreakPast(d, h - 18), DayLabel, DayLabelText(k), 6), h, wrap(BodyFont, step)), 3)
  }

  function PlanEntries(d: Doc, h: int, wrap: (Font, string) -> seq<string>, steps: seq<string>): Doc
    decreases |steps|
  {
    if steps == [] then d
    else PlanEntry(PlanEntries(d, h, wrap, steps[..|steps| - 1]), h, wrap, |steps|, steps[|steps| - 1])
  }

  /** The footer: break past `pageHeight - 18`, 6 mm, a rule, 8 mm, the
      footer line (the cursor is not moved after it). */
  function Footer(d: Doc, h: int): Doc {
    var ruled := Draw(Skip(BreakPast(d, h - 18), 6), Rule, [], 8);
    ruled.(marks := ruled.marks + [Mark(FooterText, ruled.pages, ruled.y, FooterLine)])
  }

  function SummarySection(d: Doc, h: int, wrap: (Font, string) -> seq<string>, pack: PrepPack): Doc {
    Paragraph(Header(d, h, SectionTitles[0]), h, wrap, TextOrPlaceholder(pack.roleSummary))
  }

  function SkillsSection(d: Doc, h: int, wrap: (Font, string) -> seq<string>, pack: PrepPack): Doc {
    Bullets(Header(d, h, SectionTitles[1]), h, wrap, ItemsOrPlaceholder(pack.requiredSkills))
  }

  function TechSection(d: Doc, h: int, wrap: (Font, string) -> seq<string>, pack: PrepPack): Doc {
    TechBlocks(Header(d, h, SectionTitles[2]), h, wrap, pack.techQuestions)
  }

  function HrSection(d: Doc, h: int, wrap: (Font, string) -> seq<string>, pack: PrepPack): Doc {
    Numbered(Header(d, h, SectionTitles[3]), h, wrap, ItemsOrPlaceholder(pack.hrQuestions))
  }

  function ResumeSection(d: Doc, h: int, wrap: (Font, string) -> seq<string>, pack: PrepPack): Doc {
    Bullets(Header(d, h, SectionTitles[4]), h, wrap, ItemsOrPlaceholder(pack.resumeImprovements))
  }

  function PlanSection(d: Doc, h: int, wrap: (Font, string) -> seq<string>, pack: PrepPack): Doc {
    PlanEntries(Header(d, h, SectionTitles[5]), h, wrap, pack.studyPlan)
  }

  /** The six sections in their fixed order, after the cover. */
  function Sections(d: Doc, h: int, wrap: (Font, string) -> seq<string>, pack: PrepPack): Doc {
    var summary := SummarySection(d, h, wrap, pack);
    var skills := SkillsSection(summary, h, wrap, pack);
    var tech := TechSection(skills, h, wrap, pack);
    var hr := HrSection(tech, h, wrap, pack);
    var resume := ResumeSection(hr, h, wrap, pack);
    PlanSection(resume, h, wrap, pack)
  }

  /** The whole document `downloadPDF` builds for a pack on pages of height
      `h`, with `generatedOn` the locale date string of the subtitle. */
  function Export(pack: PrepPack, h: int, wrap: (Font, string) -> seq<string>, generatedOn: string): Doc {
    Footer(Sections(Cover(Start, generatedOn), h, wrap, pack), h)
  }

  // ---------------------------------------------------------------------
  // What is drawn, read in order, independently of where it lands

  function Concat(parts: seq<seq<string>>): seq<string>
    decreases |parts|
  {
    if parts == [] then [] else Concat(parts[..|parts| - 1]) + parts[|parts| - 1]
  }

  function BulletContent(wrap: (Font, string) -> seq<string>, items: seq<string>): seq<string> {
    Concat(seq(|items|, i requires 0 <= i < |items| => wrap(BodyFont, BulletPrefix + items[i])))
  }

  function NumberedContent(wrap: (Font, string) -> seq<string>, items: seq<string>): seq<string> {
    Concat(seq(|items|, i requires 0 <= i < |items| => wrap(BodyFont, NumberedLabel(i + 1, items[i]))))
  }

  function TechContent(wrap: (Font, string) -> seq<string>, questions: seq<TechQuestion>): seq<string> {
    Concat(seq(|questions|, i requires 0 <= i < |questions| =>
      wrap(QuestionFont, NumberedLabel(i + 1, questions[i].question))
      + wrap(BodyFont, AnswerPrefix + questions[i].answerOutline)))
  }

  function PlanContent(wrap: (Font, string) -> seq<string>, steps: seq<string>): seq<string> {
    Concat(seq(|steps|, i requires 0 <= i < |steps| => [DayLabelText(i + 1)] + wrap(BodyFont, steps[i])))
  }

  /** Each section's texts: its header, then its lines. */
  function SummaryContent(pack: PrepPack, wrap: (Font, string) -> seq<string>): seq<string> {
    [SectionTitles[0]] + wrap(BodyFont, TextOrPlaceholder(pack.roleSummary))
  }

  function SkillsContent(pack: PrepPack, wrap: (Font, string) -> seq<string>): seq<string> {
    [SectionTitles[1]] + BulletContent(wrap, ItemsOrPlaceholder(pack.requiredSkills))
  }

  function TechSectionContent(pack: PrepPack, wrap: (Font, string) -> seq<string>): seq<string> {
    [SectionTitles[2]] + TechContent(wrap, pack.techQuestions)
  }

  function HrContent(pack: PrepPack, wrap: (Font, string) -> seq<string>): seq<string> {
    [SectionTitles[3]] + NumberedContent(wrap, ItemsOrPlaceholder(pack.hrQuestions))
  }

  function ResumeContent(pack: PrepPack, wrap: (Font, string) -> seq<string>): seq<string> {
    [SectionTitles[4]] + BulletContent(wrap, ItemsOrPlaceholder(pack.resumeImprovements))
  }

  function PlanSectionContent(pack: PrepPack, wrap: (Font, string) -> seq<string>): seq<string> {
    [SectionTitles[5]] + PlanContent(wrap, pack.studyPlan)
  }

  function CoverContent(generatedOn: string): seq<string> {
    [TitleLine, SubtitleLine, GeneratedOnPrefix + generatedOn]
  }

  /** Every text of the exported document, in reading order: the cover, each
      header followed by its section's lines, the footer. */
  function ExportContent(pack: PrepPack, wrap: (Font, string) -> seq<string>, generatedOn: string): seq<string> {
    CoverContent(generatedOn)
    + SummaryContent(pack, wrap) + SkillsContent(pack, wrap) + TechSectionContent(pack, wrap)
    + HrContent(pack, wrap) + ResumeContent(pack, wrap) + PlanSectionContent(pack, wrap)
    + [FooterLine]
  }

  /** The texts of the drawn items, in drawing order (rules have none). */
  function Texts(marks: seq<Mark>): seq<string>
    decreases |marks|
  {
    if marks == [] then []
    else
      var last := marks[|marks| - 1];
      Texts(marks[..|marks| - 1]) + (if last.kind == Rule then [] else [last.text])
  }

  /** The texts drawn as section headers, in drawing order. */
  function HeaderTexts(marks: seq<Mark>): seq<string>
    decreases |marks|
  {
    if marks == [] then []
    else
      var last := marks[|marks| - 1];
      HeaderTexts(marks[..|marks| - 1]) + (if last.kind == HeaderText then [last.text] else [])
  }

  // ---------------------------------------------------------------------
  // Where things are drawn

  /** A page tall enough for every threshold to lie below the top margin
      (A4 is 297 mm). */
  predicate Roomy(h: int) {
    h - 28 >= Top
  }

  /** The smallest step the cursor takes after drawing an item: one body
      line (11 pt, under 4 mm tall) plus its leading. */
  const LineGap: int := 6

  /** Item a is drawn before item b in reading order: on an earlier page, or
      on the same page at least one line gap higher. */
  predicate Above(a: Mark, b: Mark) {
    a.page < b.page || (a.page == b.page && a.y + LineGap <= b.y)
  }

  /** The bottom margin each kind of item respects. */
  predicate WithinMargins(m: Mark, h: int) {
    && m.y >= Top
    && (m.kind == BodyText || m.kind == DayLabel ==> m.y <= h - 18)
    && (m.kind == HeaderText ==> m.y <= h - 25)
  }

  /** The published layout property: every item on an existing page, inside
      its margin, and the items in reading order, each at least one line gap
      below the one before it on the same page. */
  predicate WellPlaced(marks: seq<Mark>, pages: nat, h: int) {
    && (forall i :: 0 <= i < |marks| ==> 1 <= marks[i].page <= pages && WithinMargins(marks[i], h))
    && (forall i, j :: 0 <= i < j < |marks| ==> Above(marks[i], marks[j]))
  }

  /** The cursor invariant: the layout property, and the cursor below every
      item of the current page. */
  predicate Laid(d: Doc, h: int) {
    && d.pages >= 1
    && d.y >= Top
    && WellPlaced(d.marks, d.pages, h)
    && (forall i :: 0 <= i < |d.marks| ==> d.marks[i].page < d.pages || d.marks[i].y + LineGap <= d.y)
  }
}
