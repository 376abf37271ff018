/** The text each section's "Copy" button puts on the clipboard
    (the `copyText` of the six `Section`s of the result page). */
module Copy {
  import opened Text
  import opened Pack

  datatype SectionId = Summary | Skills | Technical | Hr | Resume | Plan

  /** `${i + 1}. ${q.question}\n${q.answer_outline}` for the questions from
      number `first` on. */
  function TechEntries(questions: seq<TechQuestion>, first: nat): seq<string>
  {
    if questions == [] then []
    else
      [NumberedLabel(first, questions[0].question) + "\n" + questions[0].answerOutline]
      + TechEntries(questions[1..], first + 1)
  }

  /** The copy text of a section: the summary as it is, the technical
      entries separated by blank lines, every other list one item per line
      (HR questions without their numbers). */
  function CopyText(pack: PrepPack, section: SectionId): string
  {
    match section
    case Summary => pack.roleSummary
    case Skills => Join(pack.requiredSkills, "\n")
    case Technical => Join(TechEntries(pack.techQuestions, 1), "\n\n")
    case Hr => Join(pack.hrQuestions, "\n")
    case Resume => Join(pack.resumeImprovements, "\n")
    case Plan => Join(pack.studyPlan, "\n")
  }

  /** The list a list section copies. */
  function ListItems(pack: PrepPack, section: SectionId): seq<string>
    requires section in {Skills, Hr, Resume, Plan}
  {
    match section
    case Skills => pack.requiredSkills
    case Hr => pack.hrQuestions
    case Resume => pack.resumeImprovements
    case Plan => pack.studyPlan
  }

  /** k >= 1 newline-free items copy as exactly k lines, line i being item i
      verbatim (so HR questions carry no number). */
  lemma ListCopyLines(pack: PrepPack, section: SectionId)
    requires section in {Skills, Hr, Resume, Plan}
    requires |ListItems(pack, section)| >= 1
    requires forall k :: 0 <= k < |ListItems(pack, section)| ==> NoNewline(ListItems(pack, section)[k])
    ensures Split(CopyText(pack, section)) == ListItems(pack, section)
  {
    SplitJoinLines(ListItems(pack, section));
  }

  /** An empty list copies as the empty text: a single empty line. */
  lemma EmptyListCopy(pack: PrepPack, section: SectionId)
    requires section in {Skills, Hr, Resume, Plan}
    requires ListItems(pack, section) == []
    ensures Split(CopyText(pack, section)) == [[]]
  {
  }

  predicate NewlineFreeQuestions(questions: seq<TechQuestion>) {
    forall k :: 0 <= k < |questions| ==>
      NoNewline(questions[k].question) && NoNewline(questions[k].answerOutline)
  }

  /** The lines a run of technical entries is expected to copy as: each
      question's numbered label and its answer outline, with an empty line
      between consecutive entries. */
  function TechLines(questions: seq<TechQuestion>, first: nat): (lines: seq<string>)
    requires |questions| >= 1
    ensures |lines| == 3 * |questions| - 1
  {
    [NumberedLabel(first, questions[0].question), questions[0].answerOutline]
    + if |questions| == 1 then [] else [[]] + TechLines(questions[1..], first + 1)
  }

  /** Where each question's label and outline sit among the expected lines. */
  lemma {:induction false} TechLinesAt(questions: seq<TechQuestion>, first: nat, i: nat)
    requires i < |questions|
    ensures TechLines(questions, first)[3 * i] == NumberedLabel(first + i, questions[i].question)
    ensures TechLines(questions, first)[3 * i + 1] == questions[i].answerOutline
    ensures i < |questions| - 1 ==> TechLines(questions, first)[3 * i + 2] == []
  {
    if i > 0 {
      var rest := questions[1..];
      TechLinesAt(rest, first + 1, i - 1);
      var lines := TechLines(questions, first);
      var tail := TechLines(rest, first + 1);
      assert lines == [NumberedLabel(first, questions[0].question), questions[0].answerOutline] + [[]] + tail;
      assert 3 * i == 3 * (i - 1) + 3;
      assert lines[3 * i] == tail[3 * (i - 1)];
      assert lines[3 * i + 1] == tail[3 * (i - 1) + 1];
      if i < |questions| - 1 {
        assert lines[3 * i + 2] == tail[3 * (i - 1) + 2];
      }
      assert first + 1 + (i - 1) == first + i;
      assert rest[i - 1] == questions[i];
    }
  }

  /** One entry copies as two lines: its label and its outline. */
  lemma TechEntryLines(q: TechQuestion, first: nat)
    requires NoNewline(q.question) && NoNewline(q.answerOutline)
    ensures Split(NumberedLabel(first, q.question) + "\n" + q.answerOutline)
         == [NumberedLabel(first, q.question), q.answerOutline]
  {
    NumberedLabelNoNewline(first, q.question);
    SplitNoNewline(NumberedLabel(first, q.question));
    SplitNoNewline(q.answerOutline);
    SplitAtNewline(NumberedLabel(first, q.question), q.answerOutline);
  }

  /** The entries joined with blank lines split into exactly the expected
      lines. */
  lemma {:induction false} TechEntriesLines(questions: seq<TechQuestion>, first: nat)
    requires |questions| >= 1 && NewlineFreeQuestions(questions)
    ensures Split(Join(TechEntries(questions, first), "\n\n")) == TechLines(questions, first)
  {
    TechEntryLines(questions[0], first);
    var entries := TechEntries(questions, first);
    if |questions| > 1 {
      var rest := questions[1..];
      assert NewlineFreeQuestions(rest) by {
        forall k | 0 <= k < |rest| ensures NoNewline(rest[k].question) && NoNewline(rest[k].answerOutline) {
          assert rest[k] == questions[k + 1];
        }
      }
      TechEntriesLines(rest, first + 1);
      assert entries[1..] == TechEntries(rest, first + 1);
      SplitAtBlankLine(entries[0], Join(entries[1..], "\n\n"));
    }
  }

  /** N >= 1 questions with newline-free texts copy as 3N - 1 lines: for
      question i (numbered from 1) its label, then its answer outline, then
      an empty line before the next entry. */
  lemma TechCopyLines(pack: PrepPack)
    requires |pack.techQuestions| >= 1 && NewlineFreeQuestions(pack.techQuestions)
    ensures var lines := Split(CopyText(pack, Technical));
      && |lines| == 3 * |pack.techQuestions| - 1
      && forall i :: 0 <= i < |pack.techQuestions| ==>
           && lines[3 * i] == NumberedLabel(i + 1, pack.techQuestions[i].question)
           && lines[3 * i + 1] == pack.techQuestions[i].answerOutline
           && (i < |pack.techQuestions| - 1 ==> lines[3 * i + 2] == [])
  {
    TechEntriesLines(pack.techQuestions, 1);
    var lines := Split(CopyText(pack, Technical));
    var n := |pack.techQuestions|;
    forall i | 0 <= i < n
      ensures lines[3 * i] == NumberedLabel(i + 1, pack.techQuestions[i].question)
      ensures lines[3 * i + 1] == pack.techQuestions[i].answerOutline
      ensures i < n - 1 ==> lines[3 * i + 2] == []
    {
      TechLinesAt(pack.techQuestions, 1, i);
      assert 1 + i == i + 1;
    }
  }
}
