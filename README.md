# PrepPilot: the result-page export and the generate form

PrepPilot is a Next.js front end for an interview-preparation agent. A user
pastes a job description and optionally a résumé. The home page sends them to
the backend's `/generate` endpoint, stores the returned *prep pack* in local
storage and opens the result page. The result page shows the pack in six
sections. Each section has a "Copy" button, and the page can export the pack
as a professional PDF.

This project models three parts of that front end:

- **The PDF export** (`downloadPDF` in `prep/app/result/page.tsx`). It is
  modelled as a document cursor:
  - a height `y` in millimetres, the number of pages, and the log of drawn
    items, each with its page and height;
  - every helper (`addTitle`, `addSubTitle`, `addSectionHeader`,
    `addParagraph`, `addBullets`, `addNumbered`), the technical-question loop,
    the study-plan loop and the footer. Each is a function on cursor values
    (module `Layout`) and a method of the class `Writer.PdfWriter`, which
    changes the cursor in place and is proved to match the function;
  - `Layout.Export`, the whole document as one function of the pack
    (result/page.tsx:57-257), and `Writer.DownloadTrace`, what the page does
    on a download: raise `downloading`, save or alert, lower `downloading`;
  - `Writer.ResultPage.DownloadPdf`, the handler with its `downloading` flag,
    its save and its failure alert.

  The proofs show three things: the export draws exactly the pack's content
  in order under the six numbered headers; every item lies inside its margin,
  in reading order, and at least 6 mm (one body line) below the previous item
  on the same page; and an empty pack exports the "—" placeholders.
- **The copy texts** of the six sections (`Copy.CopyText`, the `copyText`
  expressions at result/page.tsx:348-403). They are proved to
  split back into the items, one line each. For technical questions each
  question gives a numbered label line, its outline line and a blank line.
- **The generate form** (`canGenerate` and `handleGenerate` in
  `prep/app/page.tsx`). The button's guard is `Generate.CanGenerate`
  (page.tsx:33). The class `Generate.GenerateForm` records every state
  change and side effect (set error, set loading, set status, POST, store,
  navigate) in order. Its handler is proved equal to a reference trace
  `GenerateTrace`. Lemmas then state:
  - which paths send the request;
  - that the error is cleared first;
  - that loading and the status text are reset on every path past the
    guards;
  - that the result is stored before navigating.

Shared text machinery lives in module `Text`:
- `join` and `split("\n")`;
- decimal rendering of numbers;
- JavaScript's `trim` (its whitespace set);
- JavaScript's `length`, which counts UTF-16 code units.

## Model

| member | source | states |
|---|---|---|
| Writer.PdfWriter.constructor | prep/app/result/page.tsx:62-69 | a new writer has one page, the cursor at the 18 mm top margin and nothing drawn |
| Writer.PdfWriter.NewPageIfPast | prep/app/result/page.tsx:88-91 | adds a page and returns to the top margin exactly when the cursor is past the threshold, as `BreakPast` |
| Writer.PdfWriter.Put | prep/app/result/page.tsx:112-113 | draws one item at the cursor on the current page and moves the cursor down by the step |
| Writer.PdfWriter.AddTitle | prep/app/result/page.tsx:71-76 | draws the title at the cursor and advances 10 mm |
| Writer.PdfWriter.AddSubTitle | prep/app/result/page.tsx:78-85 | draws a subtitle at the cursor and advances 8 mm |
| Writer.PdfWriter.AddSectionHeader | prep/app/result/page.tsx:87-100 | breaks the page past 25 mm from the bottom, draws the header, then the rule 7 mm lower, and ends 13 mm below |
| Writer.PdfWriter.AddLines | prep/app/result/page.tsx:107-114 | the loop draws the wrapped lines in order, each after its own page-break check, 6 mm apart |
| Writer.PdfWriter.AddParagraph | prep/app/result/page.tsx:102-116 | wraps the text in the body font, draws its lines and adds 2 mm |
| Writer.PdfWriter.AddBullets | prep/app/result/page.tsx:118-135 | draws each item prefixed with "• " and wrapped, in order, then adds 2 mm |
| Writer.PdfWriter.AddNumbered | prep/app/result/page.tsx:137-156 | draws item i as "i. item" wrapped, with 1 mm after each item and 2 mm at the end |
| Writer.PdfWriter.AddTechQuestions | prep/app/result/page.tsx:172-203 | for each question: a page check at 28 mm, the numbered question in bold 12, "Answer outline: …" in body font, then 3 mm |
| Writer.PdfWriter.AddStudyPlan | prep/app/result/page.tsx:212-235 | for each step: a page check, the "Day i" label, the wrapped step, then 3 mm |
| Writer.PdfWriter.AddFooter | prep/app/result/page.tsx:237-255 | page check at 18 mm, 6 mm gap, rule, 8 mm, then the footer line |
| Writer.PdfWriter.AddPack | prep/app/result/page.tsx:158-235 | draws the cover, then the six sections in order, with the "—" placeholders for empty fields |
| Writer.RenderPack | prep/app/result/page.tsx:57-257 | the rendered document is the export; on a page at least 46 mm tall its texts are exactly the pack content and its headers exactly the six section titles, all well placed |
| Writer.DownloadTraceShape | prep/app/result/page.tsx:57-263 | an export sets `downloading` first and clears it last; it saves under "PrepPilot_Interview_Prep_Pack.pdf" exactly when nothing throws, and shows the failure alert exactly when it throws; the saved document holds all content in order and well placed |
| Writer.ResultPage.constructor | prep/app/result/page.tsx:31-32 | the page starts with the loaded pack (or none), `downloading` false and nothing done |
| Writer.ResultPage.DownloadPdf | prep/app/result/page.tsx:57-263 | with no data nothing happens; otherwise the page performs exactly the download trace and ends with `downloading` false |
| LayoutFacts.DrawEmits | prep/app/result/page.tsx:112-113 | drawing at the cursor appends one item, keeps the cursor invariant (items in margins and in reading order at least 6 mm apart, cursor at least 6 mm below every item of its page) and advances by the step, which is at least 6 mm |
| LayoutFacts.BreakPastEmits | prep/app/result/page.tsx:126-129 | a page check draws nothing, keeps the invariant, and either leaves the cursor or moves it to a new page |
| LayoutFacts.NewPageStartsAtTop | prep/app/result/page.tsx:88-91 | a page is added exactly when the cursor is past the threshold, and then the cursor is at the 18 mm top margin: a header after a break is drawn at 18 mm and ends at 31 mm, a line at 18 mm ending at 24 mm |
| LayoutFacts.TitleEmits | prep/app/result/page.tsx:71-76 | the title draws exactly its text and advances 10 mm |
| LayoutFacts.SubTitleEmits | prep/app/result/page.tsx:78-85 | a subtitle draws exactly its text and advances 8 mm |
| LayoutFacts.CoverEmits | prep/app/result/page.tsx:158-162 | the cover draws the title, the tool line and "Generated on: " + date, in that order, and advances 32 mm |
| LayoutFacts.HeaderEmits | prep/app/result/page.tsx:87-100 | a section header draws its text once as a header, keeps the invariant and advances 13 mm unless a page is added |
| LayoutFacts.LinesEmits | prep/app/result/page.tsx:107-114 | a run of lines draws exactly those lines, in order, advancing 6 mm each unless a page is added |
| LayoutFacts.ParagraphEmits | prep/app/result/page.tsx:102-116 | a paragraph draws exactly the body-font wrapping of its text |
| LayoutFacts.BulletsEmits | prep/app/result/page.tsx:118-135 | a bullet list draws exactly the wrappings of "• item", item by item |
| LayoutFacts.NumberedEmits | prep/app/result/page.tsx:137-156 | a numbered list draws exactly the wrappings of "i. item", numbered from 1 |
| LayoutFacts.TechBlockEmits | prep/app/result/page.tsx:172-203 | one technical question draws its wrapped numbered question, then its wrapped answer outline |
| LayoutFacts.TechBlockStart | prep/app/result/page.tsx:173-186 | a technical question's first line is drawn at least 28 mm above the page bottom |
| LayoutFacts.TechBlocksEmits | prep/app/result/page.tsx:172-203 | the question loop draws every question's block in order, numbered from 1 |
| LayoutFacts.PlanEntryEmits | prep/app/result/page.tsx:212-235 | one plan step draws "Day k" and then the wrapped step |
| LayoutFacts.PlanEntriesEmits | prep/app/result/page.tsx:212-235 | the plan loop draws "Day 1", "Day 2", … each followed by its step, in order |
| LayoutFacts.SummarySectionKeeps | prep/app/result/page.tsx:165-166 | the summary section draws its header, then the summary or "—" |
| LayoutFacts.SkillsSectionKeeps | prep/app/result/page.tsx:168-169 | the skills section draws its header, then the skills as bullets or a single "• —" |
| LayoutFacts.TechSectionKeeps | prep/app/result/page.tsx:171-203 | the technical section draws its header, then every question block in order (no placeholder) |
| LayoutFacts.HrSectionKeeps | prep/app/result/page.tsx:205-206 | the HR section draws its header, then the questions numbered or a single "1. —" |
| LayoutFacts.ResumeSectionKeeps | prep/app/result/page.tsx:208-209 | the résumé section draws its header, then the improvements as bullets or "• —" |
| LayoutFacts.PlanSectionKeeps | prep/app/result/page.tsx:211-235 | the plan section draws its header, then every day entry |
| LayoutFacts.SectionsKeep | prep/app/result/page.tsx:164-235 | the six sections draw their content in order, and the headers drawn are exactly the six section titles |
| LayoutFacts.FooterKeeps | prep/app/result/page.tsx:237-255 | the footer draws exactly the footer line, last, inside the page and at least 4 mm above its bottom |
| LayoutFacts.ExportDrawsContent | prep/app/result/page.tsx:57-257 | the whole export draws the cover, the six sections and the footer, nothing else, in that order; its headers are the six titles |
| LayoutFacts.ExportWellPlaced | prep/app/result/page.tsx:57-257 | every exported item lies on an existing page, inside its margin (body 18 mm, headers 25 mm), and in reading order, each at least 6 mm below the previous item on its page |
| LayoutFacts.EmptyPackExport | prep/app/result/page.tsx:166-209 | an all-empty pack still exports every header, "—" for the summary, "• —" for skills and résumé, "1. —" for HR, and nothing for the question and plan loops |
| Pack.NumberedLabelNoNewline | prep/app/result/page.tsx:142 | "i. text" has no line break when the text has none |
| Text.NatToStringValue | prep/app/result/page.tsx:142 | the decimal rendering of an item number reads back as that number, with no leading zero |
| Text.NatToStringInjective | prep/app/result/page.tsx:142 | distinct item numbers give distinct labels |
| Text.SplitJoinLines | prep/app/result/page.tsx:352 | splitting items joined with "\n" at line breaks returns the items, when none contains a break |
| Text.SplitAtBlankLine | prep/app/result/page.tsx:366 | a "\n\n" join splits into the two sides' lines with one empty line between |
| Text.TrimShape | prep/app/page.tsx:33 | `trim` removes a prefix and a suffix made only of whitespace, keeps a contiguous slice, and leaves no whitespace at either end |
| Text.Utf16LengthBounds | prep/app/page.tsx:28 | a string's UTF-16 length is between its code-point count and twice that, and equals it exactly when every character is in the Basic Multilingual Plane |
| Copy.ListCopyLines | prep/app/result/page.tsx:352 | a non-empty skills, HR, résumé or plan list copies as exactly its items, one per line and verbatim, so HR questions are unnumbered |
| Copy.EmptyListCopy | prep/app/result/page.tsx:352 | an empty skills, HR, résumé or plan list copies as the empty text, a single empty line |
| Copy.TechCopyLines | prep/app/result/page.tsx:366 | N technical questions copy as 3N-1 lines: label "i. question", the outline, and a blank line between entries |
| Copy.TechLinesAt | prep/app/result/page.tsx:366 | the position of each question's label, outline and separator among the copied lines |
| Copy.TechEntriesLines | prep/app/result/page.tsx:366 | the technical entries joined with blank lines split exactly into the expected lines |
| Generate.GenerateForm.constructor | prep/app/page.tsx:21-26 | a new form has empty fields, level "Intern", not loading, no status and no error |
| Generate.GenerateForm.Perform | prep/app/page.tsx:36-77 | one state setter or side effect is recorded and applied to the form state |
| Generate.GenerateForm.Respond | prep/app/page.tsx:55-73 | a non-ok, unreachable or unparsable response sets the generic error; a good one stores the result under "preppilot_result" and opens "/result" |
| Generate.GenerateForm.Attempt | prep/app/page.tsx:48-77 | sets loading and the two status texts, POSTs to `${backendUrl}/generate`, handles the response, and always resets loading and status |
| Generate.GenerateForm.RejectMissingUrl | prep/app/page.tsx:38-41 | without a backend URL it only shows the missing-URL message |
| Generate.GenerateForm.RejectShortJobDescription | prep/app/page.tsx:43-46 | a trimmed description under 30 units only shows the validation message |
| Generate.GenerateForm.Proceed | prep/app/page.tsx:48-77 | past the guards the form performs the request path exactly as the reference trace |
| Generate.GenerateForm.HandleGenerate | prep/app/page.tsx:35-78 | the handler's effects and final state are exactly the reference trace and its replay on the old state |
| Generate.ClearsErrorFirst | prep/app/page.tsx:36 | every path clears the error before anything else |
| Generate.MissingUrlStops | prep/app/page.tsx:38-41 | with no URL, only the error changes: no length check, no loading, no request |
| Generate.ShortJobDescriptionStops | prep/app/page.tsx:43-46 | with a short description, only the error changes and nothing is requested |
| Generate.RequestIffCanGenerate | prep/app/page.tsx:33-63 | a request is sent if and only if the URL is set and `canGenerate` holds with loading off; it carries the form's fields to `${backendUrl}/generate` |
| Generate.AttemptOutcome | prep/app/page.tsx:48-77 | past the guards, the handler always ends not loading with empty status; on success the error is empty, the result is stored and the route is "/result"; otherwise only the generic error is set |
| Generate.StoreBeforeNavigate | prep/app/page.tsx:70-71 | on success the result is stored before the navigation to the page that reads it |
| Generate.CanGenerateMeetsBackend | backend/main.py:33 | a description the button accepts has at least 15 code points, and at least the backend's 30 when its trimmed text is in the Basic Multilingual Plane |
| Generate.AstralGuardGap | prep/app/page.tsx:33 | fifteen U+1F600 characters pass the client guard yet have fewer than 30 code points |
| Generate.CodePointGuardMeetsBackend | backend/main.py:33 | a guard counting code points after trimming lets through only descriptions of at least 30 code points, and agrees with the button's guard on text in the Basic Multilingual Plane |
| Generate.CodePointGuardRefusesGap | prep/app/page.tsx:33 | the code-point guard refuses the fifteen U+1F600 characters the button accepts |

## Left out

- Rendering: the JSX markup, icons, styling and scrolling are not modelled. Neither is the "Copy" button's clipboard call or its "copied" indicator.
- jsPDF internals are not modelled: fonts, font sizes, colours and rule coordinates. Line wrapping (`splitTextToSize`) is a parameter, a function from a font and a text to lines. Page size is an integer parameter rather than jsPDF's A4 in floating-point millimetres.
- `new Date().toLocaleString()` depends on the clock and the locale. It is the parameter `generatedOn`.
- Whether jsPDF throws during an export is an input flag. A failed export saves nothing, so what was half-drawn before the throw is not modelled.
- Loading the pack from local storage on the result page, `JSON.parse` and `JSON.stringify` are not modelled. The page holds an optional pack, and the stored value is the response body as text.
- A missing field: `PrepPack` always has all six fields, so it cannot express a stored pack that lacks one. The backend's response model always sends all six (backend/main.py:41-47, 75). The PDF export would treat a missing field as empty (`||`, `?.length`). But the page's copy texts and lists call `.join` and `.map` on the lists without `?.` (result/page.tsx:352-405). So a missing list makes the render throw, and the page shows no copy or download buttons. Only `role_summary` can be missing without a crash.
- The network request, the 350 ms delay, and the `await`s are not modelled. React's batching and re-rendering between state setters are not modelled either. The request's result is an `Outcome` input: unreachable, non-ok, ok with unparsable body, or ok with a body.
- backend/main.py is not part of this model beyond its `min_length=30` on the job description.
- Writer.RenderPack: the content and placement facts are stated only for pages at least 46 mm tall, which A4 (297 mm) meets. On shorter pages the page-break thresholds sit above the top margin.
- Generate.GenerateForm.HandleGenerate keeps the button's guard as written (UTF-16 units), because it models the page as it runs; the code-point guard of the finding below is proved on its own.

## Findings

| source | as written | input that shows it | evidently intended | confidence | as-written member | corrected member |
|---|---|---|---|---|---|---|
| prep/app/page.tsx:33 | `jobDescription.trim().length >= 30` counts UTF-16 code units, while the backend's `min_length=30` (backend/main.py:33) counts code points; the guard ensures only 15 code points in general (`Generate.CanGenerateMeetsBackend`) | fifteen U+1F600 characters: 30 code units pass the button, 15 code points make the backend answer 422 | the button enables only descriptions the backend accepts | medium, not executed | Generate.AstralGuardGap | Generate.CodePointGuardMeetsBackend |
