/** What the document cursor guarantees: each primitive only appends to what
    was drawn, keeps every item inside its margin and in reading order,
    moves the cursor by a fixed amount unless it adds a page, and draws
    exactly its own texts; so the whole export draws the pack's content in
    order under the six section headers. */
module LayoutFacts {
  import opened Text
  import opened Pack
  import opened Layout

  // ---------------------------------------------------------------------
  // Step predicates

  /** r continues d: no page removed, every earlier item left as it was. */
  predicate Extends(d: Doc, r: Doc) {
    d.pages <= r.pages && |d.marks| <= |r.marks| && r.marks[..|d.marks|] == d.marks
  }

  /** From d to r the cursor moves down exactly `advance` when no page is
      added, and ends higher than that when one is. */
  predicate Advances(d: Doc, r: Doc, advance: int) {
    && r.y <= d.y + advance
    && (r.y == d.y + advance <==> r.pages == d.pages)
  }

  /** The step from d to r keeps the cursor invariant, draws exactly
      `content` (texts in order) and `headers` (header texts in order). */
  predicate Keeps(d: Doc, r: Doc, h: int, content: seq<string>, headers: seq<string>) {
    && Extends(d, r)
    && (Laid(d, h) ==> Laid(r, h))
    && Texts(r.marks) == Texts(d.marks) + content
    && HeaderTexts(r.marks) == HeaderTexts(d.marks) + headers
  }

  predicate Emits(d: Doc, r: Doc, h: int, advance: int, content: seq<string>, headers: seq<string>) {
    && Keeps(d, r, h, content, headers)
    && (Laid(d, h) ==> Advances(d, r, advance))
  }

  // ---------------------------------------------------------------------
  // Composition

  lemma {:induction false} TextsAppend(a: seq<Mark>, b: seq<Mark>)
    ensures Texts(a + b) == Texts(a) + Texts(b)
    ensures HeaderTexts(a + b) == HeaderTexts(a) + HeaderTexts(b)
    decreases |b|
  {
    if b != [] {
      var n := |b| - 1;
      assert (a + b)[..|a + b| - 1] == a + b[..n];
      assert (a + b)[|a + b| - 1] == b[n];
      TextsAppend(a, b[..n]);
    } else {
      assert a + b == a;
    }
  }

  lemma KeepsCompose(a: Doc, b: Doc, c: Doc, h: int, c1: seq<string>, c2: seq<string>, h1: seq<string>, h2: seq<string>)
    requires Keeps(a, b, h, c1, h1) && Keeps(b, c, h, c2, h2)
    ensures Keeps(a, c, h, c1 + c2, h1 + h2)
  {
    assert c.marks[..|a.marks|] == c.marks[..|b.marks|][..|a.marks|];
  }

  lemma EmitsCompose(a: Doc, b: Doc, c: Doc, h: int, t1: int, t2: int,
                     c1: seq<string>, c2: seq<string>, h1: seq<string>, h2: seq<string>)
    requires Emits(a, b, h, t1, c1, h1) && Emits(b, c, h, t2, c2, h2)
    ensures Emits(a, c, h, t1 + t2, c1 + c2, h1 + h2)
  {
    KeepsCompose(a, b, c, h, c1, c2, h1, h2);
  }

  // ---------------------------------------------------------------------
  // Primitives

  /** A page break keeps the invariant and, past a threshold at or below
      the top margin, always moves the cursor up. */
  lemma BreakPastEmits(d: Doc, h: int, limit: int)
    requires limit >= Top
    ensures Emits(d, BreakPast(d, limit), h, 0, [], [])
  {
    assert BreakPast(d, limit).marks == d.marks;
  }

  /** A page break always lands at the top margin of the page it adds, so
      after a break every primitive ends a fixed distance below it. */
  lemma NewPageStartsAtTop(d: Doc, h: int, limit: int, text: string)
    ensures var b := BreakPast(d, limit);
      b.pages > d.pages <==> d.y > limit
    ensures var b := BreakPast(d, limit);
      b.pages > d.pages ==> b.pages == d.pages + 1 && b.y == Top
    ensures var r := Header(d, h, text);
      r.pages > d.pages ==> r.marks[|d.marks|].y == Top && r.y == Top + 13
    ensures var r := Line(d, h, text);
      r.pages > d.pages ==> r.marks[|d.marks|].y == Top && r.y == Top + 6
  {
  }

  lemma SkipEmits(d: Doc, h: int, dy: int)
    requires dy >= 0
    ensures Emits(d, Skip(d, dy), h, dy, [], [])
  {
  }

  function TextOf(kind: Kind, text: string): seq<string> {
    if kind == Rule then [] else [text]
  }

  function HeaderOf(kind: Kind, text: string): seq<string> {
    if kind == HeaderText then [text] else []
  }

  /** Drawing an item at the cursor keeps the invariant when the item lies
      inside its margin and the cursor then moves down. */
  lemma DrawEmits(d: Doc, h: int, kind: Kind, text: string, dy: int)
    requires dy >= LineGap
    requires Laid(d, h) ==> WithinMargins(Mark(kind, d.pages, d.y, text), h)
    ensures Emits(d, Draw(d, kind, text, dy), h, dy, TextOf(kind, text), HeaderOf(kind, text))
  {
    var r := Draw(d, kind, text, dy);
    assert r.marks[..|r.marks| - 1] == d.marks;
    if Laid(d, h) {
      var n := |d.marks|;
      forall i | 0 <= i < |r.marks|
        ensures 1 <= r.marks[i].page <= r.pages && WithinMargins(r.marks[i], h)
        ensures r.marks[i].page < r.pages || r.marks[i].y + LineGap <= r.y
      {
        if i < n { assert r.marks[i] == d.marks[i]; }
      }
      forall i, j | 0 <= i < j < |r.marks| ensures Above(r.marks[i], r.marks[j]) {
        assert r.marks[i] == d.marks[i];
        if j < n { assert r.marks[j] == d.marks[j]; }
      }
    }
  }

  lemma TitleEmits(d: Doc, h: int, text: string)
    ensures Emits(d, Title(d, text), h, 10, [text], [])
  {
    DrawEmits(d, h, TitleText, text, 10);
  }

  lemma SubTitleEmits(d: Doc, h: int, text: string)
    ensures Emits(d, SubTitle(d, text), h, 8, [text], [])
  {
    DrawEmits(d, h, SubtitleText, text, 8);
  }

  /** The cover draws the title and both subtitles and moves down 32 mm. */
  lemma CoverEmits(d: Doc, h: int, generatedOn: string)
    ensures Emits(d, Cover(d, generatedOn), h, 32, CoverContent(generatedOn), [])
  {
    var t := Title(d, TitleLine);
    var s1 := SubTitle(t, SubtitleLine);
    var s2 := SubTitle(s1, GeneratedOnPrefix + generatedOn);
    TitleEmits(d, h, TitleLine);
    SubTitleEmits(t, h, SubtitleLine);
    EmitsCompose(d, t, s1, h, 10, 8, [TitleLine], [SubtitleLine], [], []);
    SubTitleEmits(s1, h, GeneratedOnPrefix + generatedOn);
    EmitsCompose(d, s1, s2, h, 18, 8, [TitleLine, SubtitleLine], [GeneratedOnPrefix + generatedOn], [], []);
    SkipEmits(s2, h, 6);
    EmitsCompose(d, s2, Cover(d, generatedOn), h, 26, 6,
                 [TitleLine, SubtitleLine, GeneratedOnPrefix + generatedOn], [], [], []);
  }

  /** A section header draws its text at most 25 mm above the page bottom,
      and moves the cursor down exactly 13 mm unless it adds a page. */
  lemma HeaderEmits(d: Doc, h: int, text: string)
    requires Roomy(h)
    ensures Emits(d, Header(d, h, text), h, 13, [text], [text])
  {
    var b := BreakPast(d, h - 25);
    var t := Draw(b, HeaderText, text, 7);
    BreakPastEmits(d, h, h - 25);
    DrawEmits(b, h, HeaderText, text, 7);
    EmitsCompose(d, b, t, h, 0, 7, [], [text], [], [text]);
    DrawEmits(t, h, Rule, [], 6);
    EmitsCompose(d, t, Header(d, h, text), h, 7, 6, [text], [], [text], []);
  }

  /** A wrapped line is drawn at most 18 mm above the page bottom and moves
      the cursor down exactly 6 mm unless it adds a page. */
  lemma LineEmits(d: Doc, h: int, line: string)
    requires Roomy(h)
    ensures Emits(d, Line(d, h, line), h, 6, [line], [])
  {
    var b := BreakPast(d, h - 18);
    BreakPastEmits(d, h, h - 18);
    DrawEmits(b, h, BodyText, line, 6);
    EmitsCompose(d, b, Line(d, h, line), h, 0, 6, [], [line], [], []);
  }

  lemma {:induction false} LinesEmits(d: Doc, h: int, lines: seq<string>)
    requires Roomy(h)
    ensures Emits(d, Lines(d, h, lines), h, 6 * |lines|, lines, [])
    decreases |lines|
  {
    if lines == [] {
    } else {
      var n := |lines| - 1;
      var before := Lines(d, h, lines[..n]);
      LinesEmits(d, h, lines[..n]);
      LineEmits(before, h, lines[n]);
      EmitsCompose(d, before, Lines(d, h, lines), h, 6 * n, 6, lines[..n], [lines[n]], [], []);
      assert lines[..n] + [lines[n]] == lines;
    }
  }

  /** A paragraph draws its wrapped lines and then leaves 2 mm. */
  lemma ParagraphEmits(d: Doc, h: int, wrap: (Font, string) -> seq<string>, text: string)
    requires Roomy(h)
    ensures Emits(d, Paragraph(d, h, wrap, text), h, 6 * |wrap(BodyFont, text)| + 2, wrap(BodyFont, text), [])
  {
    var lines := wrap(BodyFont, text);
    LinesEmits(d, h, lines);
    SkipEmits(Lines(d, h, lines), h, 2);
    EmitsCompose(d, Lines(d, h, lines), Paragraph(d, h, wrap, text), h, 6 * |lines|, 2, lines, [], [], []);
  }

  // ---------------------------------------------------------------------
  // Lists

  lemma BulletContentSnoc(wrap: (Font, string) -> seq<string>, items: seq<string>)
    requires items != []
    ensures BulletContent(wrap, items)
         == BulletContent(wrap, items[..|items| - 1]) + wrap(BodyFont, BulletPrefix + items[|items| - 1])
  {
    var n := |items| - 1;
    var parts := seq(|items|, i requires 0 <= i < |items| => wrap(BodyFont, BulletPrefix + items[i]));
    var prefix := items[..n];
    assert parts[..n] == seq(n, i requires 0 <= i < n => wrap(BodyFont, BulletPrefix + prefix[i]));
  }

  lemma {:induction false} BulletItemsEmits(d: Doc, h: int, wrap: (Font, string) -> seq<string>, items: seq<string>)
    requires Roomy(h)
    ensures Emits(d, BulletItems(d, h, wrap, items), h, 6 * |BulletContent(wrap, items)|, BulletContent(wrap, items), [])
    decreases |items|
  {
    if items != [] {
      var n := |items| - 1;
      var before := BulletItems(d, h, wrap, items[..n]);
      var lines := wrap(BodyFont, BulletPrefix + items[n]);
      BulletItemsEmits(d, h, wrap, items[..n]);
      LinesEmits(before, h, lines);
      var c := BulletContent(wrap, items[..n]);
      EmitsCompose(d, before, BulletItems(d, h, wrap, items), h, 6 * |c|, 6 * |lines|, c, lines, [], []);
      BulletContentSnoc(wrap, items);
    }
  }

  /** A bullet list draws "• item" wrapped, for each item in order, then
      leaves 2 mm. */
  lemma BulletsEmits(d: Doc, h: int, wrap: (Font, string) -> seq<string>, items: seq<string>)
    requires Roomy(h)
    ensures Emits(d, Bullets(d, h, wrap, items), h, 6 * |BulletContent(wrap, items)| + 2, BulletContent(wrap, items), [])
  {
    var c := BulletContent(wrap, items);
    BulletItemsEmits(d, h, wrap, items);
    SkipEmits(BulletItems(d, h, wrap, items), h, 2);
    EmitsCompose(d, BulletItems(d, h, wrap, items), Bullets(d, h, wrap, items), h, 6 * |c|, 2, c, [], [], []);
  }

  lemma NumberedContentSnoc(wrap: (Font, string) -> seq<string>, items: seq<string>)
    requires items != []
    ensures NumberedContent(wrap, items)
         == NumberedContent(wrap, items[..|items| - 1]) + wrap(BodyFont, NumberedLabel(|items|, items[|items| - 1]))
  {
    var n := |items| - 1;
    var parts := seq(|items|, i requires 0 <= i < |items| => wrap(BodyFont, NumberedLabel(i + 1, items[i])));
    var prefix := items[..n];
    assert parts[..n] == seq(n, i requires 0 <= i < n => wrap(BodyFont, NumberedLabel(i + 1, prefix[i])));
  }

  lemma {:induction false} NumberedItemsEmits(d: Doc, h: int, wrap: (Font, string) -> seq<string>, items: seq<string>)
    requires Roomy(h)
    ensures Emits(d, NumberedItems(d, h, wrap, items), h, 6 * |NumberedContent(wrap, items)| + |items|,
                  NumberedContent(wrap, items), [])
    decreases |items|
  {
    if items != [] {
      var n := |items| - 1;
      var before := NumberedItems(d, h, wrap, items[..n]);
      var lines := wrap(BodyFont, NumberedLabel(|items|, items[n]));
      NumberedItemsEmits(d, h, wrap, items[..n]);
      LinesEmits(before, h, lines);
      SkipEmits(Lines(before, h, lines), h, 1);
      EmitsCompose(before, Lines(before, h, lines), NumberedItems(d, h, wrap, items), h, 6 * |lines|, 1, lines, [], [], []);
      var c := NumberedContent(wrap, items[..n]);
      EmitsCompose(d, before, NumberedItems(d, h, wrap, items), h, 6 * |c| + n, 6 * |lines| + 1, c, lines, [], []);
      NumberedContentSnoc(wrap, items);
    }
  }

  /** A numbered list draws "k. item" wrapped for k = 1, 2, ..., leaves 1 mm
      after each item and 2 mm after the list. */
  lemma NumberedEmits(d: Doc, h: int, wrap: (Font, string) -> seq<string>, items: seq<string>)
    requires Roomy(h)
    ensures Emits(d, Numbered(d, h, wrap, items), h, 6 * |NumberedContent(wrap, items)| + |items| + 2,
                  NumberedContent(wrap, items), [])
  {
    var c := NumberedContent(wrap, items);
    NumberedItemsEmits(d, h, wrap, items);
    SkipEmits(NumberedItems(d, h, wrap, items), h, 2);
    EmitsCompose(d, NumberedItems(d, h, wrap, items), Numbered(d, h, wrap, items), h, 6 * |c| + |items|, 2, c, [], [], []);
  }

  // ---------------------------------------------------------------------
  // Technical questions and study plan

  function TechBlockContent(wrap: (Font, string) -> seq<string>, k: nat, q: TechQuestion): seq<string> {
    wrap(QuestionFont, NumberedLabel(k, q.question)) + wrap(BodyFont, AnswerPrefix + q.answerOutline)
  }

  /** A technical block draws the wrapped "k. question" then the wrapped
      "Answer outline: ...", and leaves 3 mm. */
  lemma TechBlockEmits(d: Doc, h: int, wrap: (Font, string) -> seq<string>, k: nat, q: TechQuestion)
    requires Roomy(h)
    ensures Emits(d, TechBlock(d, h, wrap, k, q), h, 6 * |TechBlockContent(wrap, k, q)| + 3, TechBlockContent(wrap, k, q), [])
  {
    var qs := wrap(QuestionFont, NumberedLabel(k, q.question));
    var an := wrap(BodyFont, AnswerPrefix + q.answerOutline);
    var b := BreakPast(d, h - 28);
    var asked := Lines(b, h, qs);
    var answered := Lines(asked, h, an);
    BreakPastEmits(d, h, h - 28);
    LinesEmits(b, h, qs);
    EmitsCompose(d, b, asked, h, 0, 6 * |qs|, [], qs, [], []);
    LinesEmits(asked, h, an);
    EmitsCompose(d, asked, answered, h, 6 * |qs|, 6 * |an|, qs, an, [], []);
    SkipEmits(answered, h, 3);
    EmitsCompose(d, answered, TechBlock(d, h, wrap, k, q), h, 6 * |qs| + 6 * |an|, 3, qs + an, [], [], []);
  }

  /** A technical question never starts within 28 mm of the page bottom:
      its first line is drawn at most 28 mm above it, so a second line
      still fits on the same page. */
  lemma TechBlockStart(d: Doc, h: int, wrap: (Font, string) -> seq<string>, k: nat, q: TechQuestion)
    requires Roomy(h) && Laid(d, h)
    requires wrap(QuestionFont, NumberedLabel(k, q.question)) != []
    ensures var r := TechBlock(d, h, wrap, k, q);
      && |r.marks| > |d.marks|
      && r.marks[|d.marks|].y <= h - 28
      && r.marks[|d.marks|].text == wrap(QuestionFont, NumberedLabel(k, q.question))[0]
  {
    var qs := wrap(QuestionFont, NumberedLabel(k, q.question));
    var an := wrap(BodyFont, AnswerPrefix + q.answerOutline);
    var b := BreakPast(d, h - 28);
    var first := Line(b, h, qs[0]);
    assert Lines(b, h, qs[..1]) == first by {
      assert qs[..1][..0] == [];
    }
    assert first.marks == b.marks + [Mark(BodyText, b.pages, b.y, qs[0])];
    // the remaining question lines and the answer only append
    var asked := Lines(b, h, qs);
    LinesAfterPrefix(b, h, qs, 1);
    LinesEmits(asked, h, an);
    var r := TechBlock(d, h, wrap, k, q);
    assert r.marks[..|asked.marks|] == asked.marks;
    assert asked.marks[..|first.marks|] == first.marks;
    assert r.marks[|d.marks|] == asked.marks[|d.marks|] == first.marks[|d.marks|];
  }

  /** Lines drawn after a prefix of the lines only append to it. */
  lemma {:induction false} LinesAfterPrefix(d: Doc, h: int, lines: seq<string>, k: nat)
    requires k <= |lines|
    ensures Extends(Lines(d, h, lines[..k]), Lines(d, h, lines))
    decreases |lines| - k
  {
    if k < |lines| {
      var n := |lines| - 1;
      assert lines[..n][..k] == lines[..k];
      LinesAfterPrefix(d, h, lines[..n], k);
      var before := Lines(d, h, lines[..n]);
      assert Lines(d, h, lines).marks[..|before.marks|] == before.marks;
      var mid := Lines(d, h, lines[..k]);
      assert Lines(d, h, lines).marks[..|mid.marks|] == Lines(d, h, lines).marks[..|before.marks|][..|mid.marks|];
    } else {
      assert lines[..k] == lines;
    }
  }

  lemma TechContentSnoc(wrap: (Font, string) -> seq<string>, questions: seq<TechQuestion>)
    requires questions != []
    ensures TechContent(wrap, questions)
         == TechContent(wrap, questions[..|questions| - 1]) + TechBlockContent(wrap, |questions|, questions[|questions| - 1])
  {
    var n := |questions| - 1;
    var parts := seq(|questions|, i requires 0 <= i < |questions| =>
      wrap(QuestionFont, NumberedLabel(i + 1, questions[i].question))
      + wrap(BodyFont, AnswerPrefix + questions[i].answerOutline));
    var prefix := questions[..n];
    assert parts[..n] == seq(n, i requires 0 <= i < n =>
      wrap(QuestionFont, NumberedLabel(i + 1, prefix[i].question))
      + wrap(BodyFont, AnswerPrefix + prefix[i].answerOutline));
  }

  /** N questions give exactly N blocks, in their original order, numbered
      from 1; each leaves 3 mm after it. */
  lemma {:induction false} TechBlocksEmits(d: Doc, h: int, wrap: (Font, string) -> seq<string>, questions: seq<TechQuestion>)
    requires Roomy(h)
    ensures Emits(d, TechBlocks(d, h, wrap, questions), h, 6 * |TechContent(wrap, questions)| + 3 * |questions|,
                  TechContent(wrap, questions), [])
    decreases |questions|
  {
    if questions != [] {
      var n := |questions| - 1;
      var before := TechBlocks(d, h, wrap, questions[..n]);
      var c := TechContent(wrap, questions[..n]);
      var block := TechBlockContent(wrap, |questions|, questions[n]);
      TechBlocksEmits(d, h, wrap, questions[..n]);
      TechBlockEmits(before, h, wrap, |questions|, questions[n]);
      EmitsCompose(d, before, TechBlocks(d, h, wrap, questions), h, 6 * |c| + 3 * n, 6 * |block| + 3, c, block, [], []);
      TechContentSnoc(wrap, questions);
    }
  }

  function PlanEntryContent(wrap: (Font, string) -> seq<string>, k: nat, step: string): seq<string> {
    [DayLabelText(k)] + wrap(BodyFont, step)
  }

  /** A study-plan entry draws "Day k" (then 6 mm), the wrapped step, and
      leaves 3 mm. */
  lemma PlanEntryEmits(d: Doc, h: int, wrap: (Font, string) -> seq<string>, k: nat, step: string)
    requires Roomy(h)
    ensures Emits(d, PlanEntry(d, h, wrap, k, step), h, 6 * |PlanEntryContent(wrap, k, step)| + 3,
                  PlanEntryContent(wrap, k, step), [])
  {
    var lines := wrap(BodyFont, step);
    var b := BreakPast(d, h - 18);
    var labelled := Draw(b, DayLabel, DayLabelText(k), 6);
    var stepped := Lines(labelled, h, lines);
    BreakPastEmits(d, h, h - 18);
    DrawEmits(b, h, DayLabel, DayLabelText(k), 6);
    EmitsCompose(d, b, labelled, h, 0, 6, [], [DayLabelText(k)], [], []);
    LinesEmits(labelled, h, lines);
    EmitsCompose(d, labelled, stepped, h, 6, 6 * |lines|, [DayLabelText(k)], lines, [], []);
    SkipEmits(stepped, h, 3);
    EmitsCompose(d, stepped, PlanEntry(d, h, wrap, k, step), h, 6 + 6 * |lines|, 3, [DayLabelText(k)] + lines, [], [], []);
  }

  lemma PlanContentSnoc(wrap: (Font, string) -> seq<string>, steps: seq<string>)
    requires steps != []
    ensures PlanContent(wrap, steps)
         == PlanContent(wrap, steps[..|steps| - 1]) + PlanEntryContent(wrap, |steps|, steps[|steps| - 1])
  {
    var n := |steps| - 1;
    var parts := seq(|steps|, i requires 0 <= i < |steps| => [DayLabelText(i + 1)] + wrap(BodyFont, steps[i]));
    var prefix := steps[..n];
    assert parts[..n] == seq(n, i requires 0 <= i < n => [DayLabelText(i + 1)] + wrap(BodyFont, prefix[i]));
  }

  /** The study plan gives one "Day k" entry per step, k = 1, 2, ..., in order. */
  lemma {:induction false} PlanEntriesEmits(d: Doc, h: int, wrap: (Font, string) -> seq<string>, steps: seq<string>)
    requires Roomy(h)
    ensures Emits(d, PlanEntries(d, h, wrap, steps), h, 6 * |PlanContent(wrap, steps)| + 3 * |steps|,
                  PlanContent(wrap, steps), [])
    decreases |steps|
  {
    if steps != [] {
      var n := |steps| - 1;
      var before := PlanEntries(d, h, wrap, steps[..n]);
      var c := PlanContent(wrap, steps[..n]);
      var entry := PlanEntryContent(wrap, |steps|, steps[n]);
      PlanEntriesEmits(d, h, wrap, steps[..n]);
      PlanEntryEmits(before, h, wrap, |steps|, steps[n]);
      EmitsCompose(d, before, PlanEntries(d, h, wrap, steps), h, 6 * |c| + 3 * n, 6 * |entry| + 3, c, entry, [], []);
      PlanContentSnoc(wrap, steps);
    }
  }

  // ---------------------------------------------------------------------
  // The whole export

  lemma SummarySectionKeeps(d: Doc, h: int, wrap: (Font, string) -> seq<string>, pack: PrepPack)
    requires Roomy(h)
    ensures Keeps(d, SummarySection(d, h, wrap, pack), h, SummaryContent(pack, wrap), [SectionTitles[0]])
  {
    var hd := Header(d, h, SectionTitles[0]);
    HeaderEmits(d, h, SectionTitles[0]);
    ParagraphEmits(hd, h, wrap, TextOrPlaceholder(pack.roleSummary));
    KeepsCompose(d, hd, SummarySection(d, h, wrap, pack), h,
                 [SectionTitles[0]], wrap(BodyFont, TextOrPlaceholder(pack.roleSummary)), [SectionTitles[0]], []);
  }

  lemma SkillsSectionKeeps(d: Doc, h: int, wrap: (Font, string) -> seq<string>, pack: PrepPack)
    requires Roomy(h)
    ensures Keeps(d, SkillsSection(d, h, wrap, pack), h, SkillsContent(pack, wrap), [SectionTitles[1]])
  {
    var hd := Header(d, h, SectionTitles[1]);
    HeaderEmits(d, h, SectionTitles[1]);
    BulletsEmits(hd, h, wrap, ItemsOrPlaceholder(pack.requiredSkills));
    KeepsCompose(d, hd, SkillsSection(d, h, wrap, pack), h,
                 [SectionTitles[1]], BulletContent(wrap, ItemsOrPlaceholder(pack.requiredSkills)), [SectionTitles[1]], []);
  }

  lemma TechSectionKeeps(d: Doc, h: int, wrap: (Font, string) -> seq<string>, pack: PrepPack)
    requires Roomy(h)
    ensures Keeps(d, TechSection(d, h, wrap, pack), h, TechSectionContent(pack, wrap), [SectionTitles[2]])
  {
    var hd := Header(d, h, SectionTitles[2]);
    HeaderEmits(d, h, SectionTitles[2]);
    TechBlocksEmits(hd, h, wrap, pack.techQuestions);
    KeepsCompose(d, hd, TechSection(d, h, wrap, pack), h,
                 [SectionTitles[2]], TechContent(wrap, pack.techQuestions), [SectionTitles[2]], []);
  }

  lemma HrSectionKeeps(d: Doc, h: int, wrap: (Font, string) -> seq<string>, pack: PrepPack)
    requires Roomy(h)
    ensures Keeps(d, HrSection(d, h, wrap, pack), h, HrContent(pack, wrap), [SectionTitles[3]])
  {
    var hd := Header(d, h, SectionTitles[3]);
    HeaderEmits(d, h, SectionTitles[3]);
    NumberedEmits(hd, h, wrap, ItemsOrPlaceholder(pack.hrQuestions));
    KeepsCompose(d, hd, HrSection(d, h, wrap, pack), h,
                 [SectionTitles[3]], NumberedContent(wrap, ItemsOrPlaceholder(pack.hrQuestions)), [SectionTitles[3]], []);
  }

  lemma ResumeSectionKeeps(d: Doc, h: int, wrap: (Font, string) -> seq<string>, pack: PrepPack)
    requires Roomy(h)
    ensures Keeps(d, ResumeSection(d, h, wrap, pack), h, ResumeContent(pack, wrap), [SectionTitles[4]])
  {
    var hd := Header(d, h, SectionTitles[4]);
    HeaderEmits(d, h, SectionTitles[4]);
    BulletsEmits(hd, h, wrap, ItemsOrPlaceholder(pack.resumeImprovements));
    KeepsCompose(d, hd, ResumeSection(d, h, wrap, pack), h,
                 [SectionTitles[4]], BulletContent(wrap, ItemsOrPlaceholder(pack.resumeImprovements)), [SectionTitles[4]], []);
  }

  lemma PlanSectionKeeps(d: Doc, h: int, wrap: (Font, string) -> seq<string>, pack: PrepPack)
    requires Roomy(h)
    ensures Keeps(d, PlanSection(d, h, wrap, pack), h, PlanSectionContent(pack, wrap), [SectionTitles[5]])
  {
    var hd := Header(d, h, SectionTitles[5]);
    HeaderEmits(d, h, SectionTitles[5]);
    PlanEntriesEmits(hd, h, wrap, pack.studyPlan);
    KeepsCompose(d, hd, PlanSection(d, h, wrap, pack), h,
                 [SectionTitles[5]], PlanContent(wrap, pack.studyPlan), [SectionTitles[5]], []);
  }

  /** The texts of the six sections, headers included, in order. */
  function SectionsContent(pack: PrepPack, wrap: (Font, string) -> seq<string>): seq<string> {
    SummaryContent(pack, wrap) + SkillsContent(pack, wrap) + TechSectionContent(pack, wrap)
    + HrContent(pack, wrap) + ResumeContent(pack, wrap) + PlanSectionContent(pack, wrap)
  }

  /** The six sections draw their content in order and exactly the six
      section headers, once each and in order, whatever the pack holds. */
  lemma SectionsKeep(d: Doc, h: int, wrap: (Font, string) -> seq<string>, pack: PrepPack)
    requires Roomy(h)
    ensures Keeps(d, Sections(d, h, wrap, pack), h, SectionsContent(pack, wrap), SectionTitles)
  {
    var summary := SummarySection(d, h, wrap, pack);
    var skills := SkillsSection(summary, h, wrap, pack);
    var tech := TechSection(skills, h, wrap, pack);
    var hr := HrSection(tech, h, wrap, pack);
    var resume := ResumeSection(hr, h, wrap, pack);
    SummarySectionKeeps(d, h, wrap, pack);
    SkillsSectionKeeps(summary, h, wrap, pack);
    TechSectionKeeps(skills, h, wrap, pack);
    HrSectionKeeps(tech, h, wrap, pack);
    ResumeSectionKeeps(hr, h, wrap, pack);
    PlanSectionKeeps(resume, h, wrap, pack);
    SixSteps(d, summary, skills, tech, hr, resume, Sections(d, h, wrap, pack), h,
             SummaryContent(pack, wrap), SkillsContent(pack, wrap), TechSectionContent(pack, wrap),
             HrContent(pack, wrap), ResumeContent(pack, wrap), PlanSectionContent(pack, wrap));
  }

  /** Six steps, the k-th drawing header k, keep the invariant together and
      draw their contents and the six headers in order. */
  lemma SixSteps(d0: Doc, d1: Doc, d2: Doc, d3: Doc, d4: Doc, d5: Doc, d6: Doc, h: int,
                 c0: seq<string>, c1: seq<string>, c2: seq<string>,
                 c3: seq<string>, c4: seq<string>, c5: seq<string>)
    requires Keeps(d0, d1, h, c0, [SectionTitles[0]])
    requires Keeps(d1, d2, h, c1, [SectionTitles[1]])
    requires Keeps(d2, d3, h, c2, [SectionTitles[2]])
    requires Keeps(d3, d4, h, c3, [SectionTitles[3]])
    requires Keeps(d4, d5, h, c4, [SectionTitles[4]])
    requires Keeps(d5, d6, h, c5, [SectionTitles[5]])
    ensures Keeps(d0, d6, h, c0 + c1 + c2 + c3 + c4 + c5, SectionTitles)
  {
    var t := SectionTitles;
    KeepsCompose(d0, d1, d2, h, c0, c1, [t[0]], [t[1]]);
    KeepsCompose(d0, d2, d3, h, c0 + c1, c2, [t[0]] + [t[1]], [t[2]]);
    KeepsCompose(d0, d3, d4, h, c0 + c1 + c2, c3, [t[0]] + [t[1]] + [t[2]], [t[3]]);
    KeepsCompose(d0, d4, d5, h, c0 + c1 + c2 + c3, c4, [t[0]] + [t[1]] + [t[2]] + [t[3]], [t[4]]);
    KeepsCompose(d0, d5, d6, h, c0 + c1 + c2 + c3 + c4, c5,
                 [t[0]] + [t[1]] + [t[2]] + [t[3]] + [t[4]], [t[5]]);
    assert [t[0]] + [t[1]] + [t[2]] + [t[3]] + [t[4]] + [t[5]] == t;
  }

  /** The footer draws its rule and line, and everything stays well placed
      (the footer line itself sits at most 4 mm above the page bottom). */
  lemma FooterKeeps(d: Doc, h: int)
    requires Roomy(h)
    ensures var r := Footer(d, h);
      && Extends(d, r)
      && Texts(r.marks) == Texts(d.marks) + [FooterLine]
      && HeaderTexts(r.marks) == HeaderTexts(d.marks)
      && (Laid(d, h) ==> r.pages >= 1 && WellPlaced(r.marks, r.pages, h) && r.marks[|r.marks| - 1].y <= h - 4)
  {
    var b := BreakPast(d, h - 18);
    var s := Skip(b, 6);
    var ruled := Draw(s, Rule, [], 8);
    BreakPastEmits(d, h, h - 18);
    SkipEmits(b, h, 6);
    EmitsCompose(d, b, s, h, 0, 6, [], [], [], []);
    DrawEmits(s, h, Rule, [], 8);
    EmitsCompose(d, s, ruled, h, 6, 8, [], [], [], []);
    AppendAtCursor(d, ruled, Footer(d, h), Mark(FooterText, ruled.pages, ruled.y, FooterLine), h);
  }

  /** Appending an item at the cursor, without moving it, after a step that
      kept the invariant: the item comes after every other in reading order. */
  lemma AppendAtCursor(d: Doc, ruled: Doc, r: Doc, m: Mark, h: int)
    requires Emits(d, ruled, h, 14, [], [])
    requires r == ruled.(marks := ruled.marks + [m])
    requires m.page == ruled.pages && m.y == ruled.y && m.kind == FooterText
    ensures Extends(d, r)
    ensures Texts(r.marks) == Texts(d.marks) + [m.text]
    ensures HeaderTexts(r.marks) == HeaderTexts(d.marks)
    ensures Laid(d, h) ==> r.pages >= 1 && WellPlaced(r.marks, r.pages, h) && r.marks[|r.marks| - 1].y <= d.y + 14
  {
    assert Extends(d, r) by {
      assert r.marks[..|d.marks|] == ruled.marks[..|d.marks|];
    }
    assert Texts(r.marks) == Texts(d.marks) + [m.text] && HeaderTexts(r.marks) == HeaderTexts(d.marks) by {
      assert r.marks[..|r.marks| - 1] == ruled.marks;
    }
    if Laid(d, h) {
      assert Laid(ruled, h) && ruled.y <= d.y + 14;
      PlacedAtCursor(ruled, m, h);
    }
  }

  lemma PlacedAtCursor(d: Doc, m: Mark, h: int)
    requires Laid(d, h)
    requires m.page == d.pages && m.y == d.y && m.kind == FooterText
    ensures WellPlaced(d.marks + [m], d.pages, h)
  {
    var marks := d.marks + [m];
    var n := |d.marks|;
    forall i | 0 <= i < |marks| ensures 1 <= marks[i].page <= d.pages && WithinMargins(marks[i], h) {
      if i < n { assert marks[i] == d.marks[i]; }
    }
    forall i, j | 0 <= i < j < |marks| ensures Above(marks[i], marks[j]) {
      assert marks[i] == d.marks[i];
      if j < n { assert marks[j] == d.marks[j]; }
    }
  }

  lemma StartLaid(h: int)
    ensures Laid(Start, h)
  {
  }

  /** Whatever the pack and however the text wraps, the exported document
      draws exactly the pack's content, in order: the cover, each section
      header followed by its section (the placeholder "—" for an empty
      summary, skill, HR or resume list; nothing for an empty question list
      or plan), and the footer. Page breaks never drop, repeat or reorder
      a text. */
  lemma ExportDrawsContent(pack: PrepPack, h: int, wrap: (Font, string) -> seq<string>, generatedOn: string)
    requires Roomy(h)
    ensures Texts(Export(pack, h, wrap, generatedOn).marks) == ExportContent(pack, wrap, generatedOn)
    ensures HeaderTexts(Export(pack, h, wrap, generatedOn).marks) == SectionTitles
  {
    var cover := Cover(Start, generatedOn);
    var sections := Sections(cover, h, wrap, pack);
    CoverEmits(Start, h, generatedOn);
    SectionsKeep(cover, h, wrap, pack);
    FooterKeeps(sections, h);
    ExportContentSplit(pack, wrap, generatedOn);
    DocumentContent(cover, sections, Footer(sections, h), h, CoverContent(generatedOn), SectionsContent(pack, wrap));
  }

  /** Cover, sections and footer drawn one after the other from a blank
      document draw the cover's texts, the sections' and the footer line. */
  lemma DocumentContent(cover: Doc, sections: Doc, done: Doc, h: int, c1: seq<string>, c2: seq<string>)
    requires Keeps(Start, cover, h, c1, [])
    requires Keeps(cover, sections, h, c2, SectionTitles)
    requires Texts(done.marks) == Texts(sections.marks) + [FooterLine]
    requires HeaderTexts(done.marks) == HeaderTexts(sections.marks)
    ensures Texts(done.marks) == c1 + c2 + [FooterLine]
    ensures HeaderTexts(done.marks) == SectionTitles
  {
    KeepsCompose(Start, cover, sections, h, c1, c2, [], SectionTitles);
  }

  /** The export's content is the cover's, then the sections', then the footer. */
  lemma ExportContentSplit(pack: PrepPack, wrap: (Font, string) -> seq<string>, generatedOn: string)
    ensures ExportContent(pack, wrap, generatedOn)
         == CoverContent(generatedOn) + SectionsContent(pack, wrap) + [FooterLine]
  {
    var c0 := SummaryContent(pack, wrap);
    var c1 := SkillsContent(pack, wrap);
    var c2 := TechSectionContent(pack, wrap);
    var c3 := HrContent(pack, wrap);
    var c4 := ResumeContent(pack, wrap);
    var c5 := PlanSectionContent(pack, wrap);
    Regroup(CoverContent(generatedOn), c0, c1, c2, c3, c4, c5);
  }

  lemma Regroup(a: seq<string>, b0: seq<string>, b1: seq<string>, b2: seq<string>,
                b3: seq<string>, b4: seq<string>, b5: seq<string>)
    ensures a + b0 + b1 + b2 + b3 + b4 + b5 == a + (b0 + b1 + b2 + b3 + b4 + b5)
  {
  }

  /** On pages at least 46 mm tall, every item of the export lies on one of
      its pages, inside its margin (body lines and day labels at most 18 mm
      above the bottom, headers at most 25 mm), and the items are in reading
      order, each at least 6 mm below the one before it on the same page. */
  lemma ExportWellPlaced(pack: PrepPack, h: int, wrap: (Font, string) -> seq<string>, generatedOn: string)
    requires Roomy(h)
    ensures var doc := Export(pack, h, wrap, generatedOn);
      doc.pages >= 1 && WellPlaced(doc.marks, doc.pages, h)
  {
    var cover := Cover(Start, generatedOn);
    var sections := Sections(cover, h, wrap, pack);
    StartLaid(h);
    CoverEmits(Start, h, generatedOn);
    SectionsKeep(cover, h, wrap, pack);
    FooterKeeps(sections, h);
  }

  /** A pack whose every field is empty still exports the cover, all six
      headers, one "—" placeholder each for the summary, skills, HR
      questions and resume improvements, and the footer. */
  lemma EmptyPackExport(h: int, wrap: (Font, string) -> seq<string>, generatedOn: string)
    requires Roomy(h)
    ensures var doc := Export(PrepPack([], [], [], [], [], []), h, wrap, generatedOn);
      && doc.pages >= 1
      && Texts(doc.marks)
         == [TitleLine, SubtitleLine, GeneratedOnPrefix + generatedOn]
            + ([SectionTitles[0]] + wrap(BodyFont, "—"))
            + ([SectionTitles[1]] + wrap(BodyFont, "• —"))
            + [SectionTitles[2]]
            + ([SectionTitles[3]] + wrap(BodyFont, "1. —"))
            + ([SectionTitles[4]] + wrap(BodyFont, "• —"))
            + [SectionTitles[5]]
            + [FooterLine]
  {
    var pack := PrepPack([], [], [], [], [], []);
    ExportDrawsContent(pack, h, wrap, generatedOn);
    ExportWellPlaced(pack, h, wrap, generatedOn);
    EmptyPackContent(wrap, generatedOn);
  }

  lemma EmptyPackContent(wrap: (Font, string) -> seq<string>, generatedOn: string)
    ensures ExportContent(PrepPack([], [], [], [], [], []), wrap, generatedOn)
         == [TitleLine, SubtitleLine, GeneratedOnPrefix + generatedOn]
            + ([SectionTitles[0]] + wrap(BodyFont, "—"))
            + ([SectionTitles[1]] + wrap(BodyFont, "• —"))
            + [SectionTitles[2]]
            + ([SectionTitles[3]] + wrap(BodyFont, "1. —"))
            + ([SectionTitles[4]] + wrap(BodyFont, "• —"))
            + [SectionTitles[5]]
            + [FooterLine]
  {
    var pack := PrepPack([], [], [], [], [], []);
    SingleBullet(wrap, "—");
    SingleNumbered(wrap, "—");
    assert BulletPrefix + "—" == "• —";
    assert "1. " + "—" == "1. —";
    assert SummaryContent(pack, wrap) == [SectionTitles[0]] + wrap(BodyFont, "—");
    assert SkillsContent(pack, wrap) == [SectionTitles[1]] + wrap(BodyFont, "• —");
    assert HrContent(pack, wrap) == [SectionTitles[3]] + wrap(BodyFont, "1. —");
    assert ResumeContent(pack, wrap) == [SectionTitles[4]] + wrap(BodyFont, "• —");
    assert TechSectionContent(pack, wrap) == [SectionTitles[2]] by {
      assert TechContent(wrap, []) == [];
    }
    assert PlanSectionContent(pack, wrap) == [SectionTitles[5]] by {
      assert PlanContent(wrap, []) == [];
    }
  }

  /** A one-item bullet list draws the wrapped "• item". */
  lemma SingleBullet(wrap: (Font, string) -> seq<string>, item: string)
    ensures BulletContent(wrap, [item]) == wrap(BodyFont, BulletPrefix + item)
  {
    var parts := seq(1, i requires 0 <= i < 1 => wrap(BodyFont, BulletPrefix + [item][i]));
    assert parts == [wrap(BodyFont, BulletPrefix + item)];
    assert parts[..0] == [];
    assert Concat(parts) == Concat(parts[..0]) + parts[0];
  }

  /** A one-item numbered list draws the wrapped "1. item". */
  lemma SingleNumbered(wrap: (Font, string) -> seq<string>, item: string)
    ensures NumberedContent(wrap, [item]) == wrap(BodyFont, "1. " + item)
  {
    var parts := seq(1, i requires 0 <= i < 1 => wrap(BodyFont, NumberedLabel(i + 1, [item][i])));
    assert NumberedLabel(1, item) == "1. " + item;
    assert parts == [wrap(BodyFont, "1. " + item)];
    assert parts[..0] == [];
    assert Concat(parts) == Concat(parts[..0]) + parts[0];
  }
}
