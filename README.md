# GOST document formatter — Dafny model

This project models the formatting core of a Telegram bot that restyles Word
reports to the Russian GOST layout. `format_document` loads a `.docx`, then
runs a fixed series of passes over its paragraphs, each in place:

1. it resets spacing and fonts;
2. it formats list items, headings, main-text alignment and first-line
   indents;
3. it appends table captions and inserts a figure caption after every
   drawing;
4. it rewrites bibliography entries;
5. it appends a table of contents.

A second, small core is the bot's filename check `is_valid_document`.

The document is the class `Formatter.Document`. It holds a sequence of
paragraph values (`DocModel.Paragraph`: runs with text, font, size and bold,
an alignment, indents, spacing and a `hasImage` flag for a drawing) and a
table count. Every pass is:

- a method on `Document` whose loop changes `paras` paragraph by paragraph;
- proved to leave exactly the value of a pure function in module `Passes`.

Lemmas in `ListProofs`, `HeadingProofs`, `StyleProofs`, `CaptionProofs`,
`BibliographyProofs`, `TocProofs` and `PipelineProofs` state what each of
those functions does.

Units are integers:

- font sizes and spacing are in points;
- indents are in hundredths of a centimetre (1.25 cm is 125);
- line spacing is in hundredths of a line (1.5 is 150).

A field the document leaves to its style is `None`. Whitespace is the set
Python's `str.isspace` accepts, which is also what `\s` matches. Digits are
ASCII. Upper and lower case are mapped for the ASCII letters and for the
Cyrillic letters U+0400–U+045F.

## Model

| member | source | states |
|---|---|---|
| Formatter.FormatDocument | app/services/formatter.py:20-115 | The result is true exactly when the input exists and the passes, in the order of the source, succeed; the document then holds their result and is saved to the path given, or to the default path when none or an empty one is given. When it is false nothing is saved and the document is as it was: a missing input is not touched, and in the model the passes fail only on a document with no paragraphs and no tables. |
| Formatter.Document.ResetSpacing | app/services/formatter.py:62-64 | Every paragraph gets space before and after 0 pt; nothing else changes. |
| Formatter.Document.ApplyBaseFont | app/services/formatter.py:68-71 | Every run of every paragraph gets Times New Roman 14 pt; nothing else changes. |
| Formatter.SetBaseFont | app/services/formatter.py:69-71 | Run j of the result is run j of the input with the base font name and size, and the count of runs is kept. |
| Formatter.EmphasizeRuns | app/services/formatter.py:191-201 | Run j of the result is run j of the input made bold at the given size, and the count of runs is kept. |
| Formatter.Document.FormatLists | app/services/formatter.py:153-179 | The paragraphs become their images under the list step, whose effect `ListProofs.ListStepEffect` states. |
| Formatter.FormatListParagraph | app/services/formatter.py:157-179 | One paragraph of the loop leaves exactly the list step of that paragraph. |
| Formatter.Document.FormatHeadings | app/services/formatter.py:182-202 | The paragraphs become their images under the heading step (see `HeadingProofs.HeadingStepEffect`). |
| Formatter.FormatHeadingParagraph | app/services/formatter.py:186-202 | One paragraph of the loop leaves exactly the heading step of that paragraph. |
| Formatter.Document.FormatMainText | app/services/formatter.py:205-222 | The paragraphs become their images under the alignment step (see `StyleProofs.MainTextStepEffect`). |
| Formatter.FormatMainTextParagraph | app/services/formatter.py:208-222 | One paragraph of the loop leaves exactly the alignment step of that paragraph. |
| Formatter.Document.FormatParagraphs | app/services/formatter.py:225-245 | The paragraphs become their images under the indent step (see `StyleProofs.ParagraphStepEffect`). |
| Formatter.FormatParagraphParagraph | app/services/formatter.py:228-245 | One paragraph of the loop leaves exactly the indent step of that paragraph. |
| Formatter.Document.AppendTableCaptions | app/services/formatter.py:251-256 | The document becomes the old one followed by the captions of tables 1..n, in order. |
| Formatter.Document.FindImageParagraphs | app/services/formatter.py:263-267 | The result holds every index of a paragraph with a drawing and no other index, in ascending order. |
| Formatter.CaptionImageAt | app/services/formatter.py:269-285 | One turn of the backward loop puts the caption of the image of rank r right after it, extending the captioned suffix by one image. |
| Formatter.Document.CaptionImages | app/services/formatter.py:269-288 | Walking from the last image back to the first, the loop leaves every image paragraph followed by its caption, as `CaptionProofs.CaptionPlacement` places them. |
| Formatter.Document.FormatTablesAndFigures | app/services/formatter.py:248-288 | The document becomes the caption pass of the old one: table captions appended, then figure captions inserted. |
| Formatter.FormatBibliographyParagraph | app/services/formatter.py:297-314 | One paragraph of the loop gives its bibliography step under the current flag. The flag becomes set when the paragraph is a marker and is never cleared. |
| Formatter.FormatBibliographyAt | app/services/formatter.py:297-314 | One turn of the loop extends the done prefix by one paragraph and keeps the flag equal to "a marker has been seen so far". |
| Formatter.Document.FormatBibliography | app/services/formatter.py:291-314 | The paragraphs become the bibliography pass of the old ones (see `BibliographyProofs`). |
| Formatter.Document.FindContents | app/services/formatter.py:320-324 | The result is true exactly when some paragraph's upper-cased text contains `СОДЕРЖАНИЕ` or `ОГЛАВЛЕНИЕ`. The document is not changed. |
| Formatter.Document.CollectHeadings | app/services/formatter.py:334-339 | The result is the stripped texts of the contents headings, in document order. `TocProofs.TocHeadingsMembership` states which texts these are. |
| Formatter.Document.AppendTocEntries | app/services/formatter.py:341-352 | The document becomes the old one followed by one entry per heading, in order. |
| Formatter.Document.GenerateToc | app/services/formatter.py:317-352 | The result is false exactly when the contents pass fails, and the document is then left alone. Otherwise the document holds the pass's result. |
| Formatter.TocHeadingsStep | app/services/formatter.py:334-339 | The heading list of one more paragraph grows by that paragraph's stripped text exactly when it is a contents heading. |
| Patterns.LeadingDigits | app/services/formatter.py:144-145 | The result is the length of the longest all-digit prefix: the prefix is all digits and the next character is not a digit. |
| Patterns.LeadingDigitsUnique | app/services/formatter.py:144-145 | Any digit prefix followed by a non-digit is the longest one, so `\d+` has a single match length. |
| Patterns.IsListItemMeaning | app/services/formatter.py:140-150 | A text is a list item exactly when it starts with one or more digits or with one Latin or Cyrillic letter (not `ё`), in either case, followed by `.` or `)` and then whitespace. |
| ListProofs.IsListItemExamples | app/services/formatter.py:140-150 | `1. x` and `b) x` are list items. `1.1 x`, `1.` and the empty text are not. |
| ListProofs.ListStepEffect | app/services/formatter.py:157-179 | A list item gets first, left and right indent 0 and justify. Only the text of its first run changes; all other runs and fields stay. Any other paragraph is left as it is. |
| ListProofs.CleanListRunEffect | app/services/formatter.py:170-178 | The cleaned first run has no tab, and its non-space characters are the same. After a leading `N.` or `N)` followed by whitespace, the tab-free text becomes the number and closer, one space, and the rest of that text from its first non-space character on. Text without such a number only has its tabs replaced. |
| ListProofs.CleanListRunIdempotent | app/services/formatter.py:170-178 | Cleaning the first run twice gives the same text as cleaning it once. |
| ListProofs.ListStepKeepsListItem | app/services/formatter.py:157-179 | A list item is still a list item after the list step. |
| ListProofs.SameShapeListItem | app/services/formatter.py:140-150 | Two texts with whitespace at the same places and the same other characters are both list items or neither. |
| ListProofs.ListStepIdempotent | app/services/formatter.py:153-179 | Applying the list step to its own result changes nothing. |
| ListProofs.ListsPassIdempotent | app/services/formatter.py:153-179 | Running `_format_lists` twice equals running it once. |
| HeadingProofs.HeadingStepEffect | app/services/formatter.py:182-202 | A section heading gets every run bold at 16 pt, centre alignment and first-line indent 0. Otherwise a raw text starting like `1.1` gets every run bold at 14 pt and indent 0, with alignment kept. Any other paragraph is unchanged. The text never changes. |
| HeadingProofs.HeadingTestsExclusive | app/services/formatter.py:186-199 | No paragraph is both a section heading and a subsection, so the order of the two tests does not matter. |
| HeadingProofs.SubsectionTestIsOnRawText | app/services/formatter.py:198 | A leading space hides `1.1` from the heading test, which reads the unstripped text, but not from the later passes, which strip it first. |
| HeadingProofs.HeadingStepIdempotent | app/services/formatter.py:182-202 | Applying the heading step to its own result changes nothing. |
| HeadingProofs.HeadingsPassIdempotent | app/services/formatter.py:182-202 | Running `_format_headings` twice equals running it once. |
| StyleProofs.MainTextStepEffect | app/services/formatter.py:205-222 | Only the alignment changes. A paragraph becomes justified unless it is centred or its stripped text is a caption, a section name or starts like `1.1`; in those cases it is unchanged. A centred paragraph stays centred. |
| StyleProofs.MainTextPassAlignment | app/services/formatter.py:205-222 | After the pass every paragraph is justified, or is unchanged for one of the reasons above. |
| StyleProofs.MainTextPassIdempotent | app/services/formatter.py:205-222 | Running `_format_main_text` twice equals running it once. |
| StyleProofs.ParagraphStepEffect | app/services/formatter.py:225-245 | Line spacing becomes 1.5. First-line indent becomes 1.25 cm exactly when the stripped text is non-empty, not a list item, not a section name, does not start like `1.1` and the paragraph is not centred; otherwise it becomes 0. Nothing else changes. |
| StyleProofs.ParagraphsPassIdempotent | app/services/formatter.py:225-245 | Running `_format_paragraphs` twice equals running it once. |
| StyleProofs.ListItemIsNoHeading | app/services/formatter.py:140-150 | A list item is neither a section name nor a subsection. |
| StyleProofs.SubsectionIsNoListItem | app/services/formatter.py:198 | A raw text starting like `1.1` is not a list item once stripped. |
| StyleProofs.ListItemStyle | app/services/formatter.py:75-87 | A list item leaves the list, heading, alignment and indent passes justified, with all indents 0 and line spacing 1.5. |
| StyleProofs.SectionHeadingStyle | app/services/formatter.py:79-87 | A section heading leaves those passes centred, bold at 16 pt, with first-line indent 0 and line spacing 1.5. |
| CaptionProofs.CaptionPlacement | app/services/formatter.py:263-285 | Original paragraph i moves down by the number of images before it. An image paragraph is immediately followed by the caption `Рисунок k`, where k is its 1-based rank among the images. |
| CaptionProofs.PlacementMonotone | app/services/formatter.py:263-285 | Original paragraphs keep their relative order. |
| CaptionProofs.CaptionsPassShape | app/services/formatter.py:248-288 | The result is the figure-captioned document followed by the captions of tables 1..n. The paragraph count grows by tables plus images, and no drawing is added. |
| CaptionProofs.CaptionFiguresConcat | app/services/formatter.py:263-285 | Captioning a concatenation captions each part; the second part's numbers continue from the first part's image count. |
| CaptionProofs.CaptionsPassTwice | app/services/formatter.py:248-288 | Existing captions are not recognised: a second run adds tables plus images paragraphs again. |
| CaptionProofs.CaptionTexts | app/services/formatter.py:253-283 | A table caption matches `^Таблица \d+ –` and its number reads back as i. A figure caption `Рисунок k` does not match `^Рисунок \d+ –`. |
| CaptionProofs.FiguresDone | app/services/formatter.py:269-285 | With every image captioned from the back, the loop's sequence is the figure-captioned document. |
| BibliographyProofs.BeforeFirstMarkerUnchanged | app/services/formatter.py:291-314 | Every paragraph before the first bibliography marker is left as it is. |
| BibliographyProofs.MarkersAndBlanksUnchanged | app/services/formatter.py:299-308 | Marker paragraphs and paragraphs whose stripped text is empty never change. |
| BibliographyProofs.AfterMarkerIsEntry | app/services/formatter.py:299-314 | Every other paragraph after a marker becomes an entry: normalised non-empty text, first-line indent −1.25 cm, left indent 1.25 cm, justify. |
| BibliographyProofs.StartedMonotone | app/services/formatter.py:297-301 | Once set, the bibliography flag stays set. |
| BibliographyProofs.StartedAfterMarker | app/services/formatter.py:297-301 | After a marker has been seen the flag is set. |
| BibliographyProofs.MarkerOfStarted | app/services/formatter.py:297-301 | When the flag is set, some earlier paragraph is a marker. |
| BibliographyProofs.BibliographyEntryShape | app/services/formatter.py:303-314 | An entry has one run in the base font holding the stripped, whitespace-collapsed text, with no double space and no space at either end. It hangs 1.25 cm, is justified and holds no drawing. |
| BibliographyProofs.BibliographyPassIdempotent | app/services/formatter.py:291-314 | Running `_format_bibliography` twice equals running it once. |
| Strings.NormalizeIdempotent | app/services/formatter.py:304-305 | Normalised text has no whitespace at its ends and no run of two, is non-empty when the stripped input is, and normalising again changes nothing. |
| TocProofs.TocPassFails | app/services/formatter.py:326-327 | The pass fails exactly on a document with no paragraphs, where `doc.paragraphs[0]` raises. |
| TocProofs.TocPassWithContents | app/services/formatter.py:317-352 | When some paragraph mentions the contents, the document is kept and followed by one blank paragraph and then one entry per heading of the original, in order. |
| TocProofs.TocPassWithoutContents | app/services/formatter.py:317-352 | Otherwise, for a non-empty document, the title `СОДЕРЖАНИЕ` comes first, then the document unchanged, one blank paragraph and one entry per heading, in order. |
| TocProofs.TocPassAddsContents | app/services/formatter.py:320-331 | After the pass the document mentions its contents, so a second run adds no second title. |
| TocProofs.TocHeadingsMembership | app/services/formatter.py:334-339 | A text is listed exactly when it is a contents heading (ВВЕДЕНИЕ, ЗАКЛЮЧЕНИЕ, СПИСОК ИСПОЛЬЗОВАННЫХ ИСТОЧНИКОВ, or starting `digits.`) and is the stripped text of some paragraph. |
| TocProofs.TocHeadingsBound | app/services/formatter.py:334-339 | There are no more headings than paragraphs, and each is a contents heading. |
| TocProofs.TocBodyHeadings | app/services/formatter.py:326-339 | Neither the inserted title nor the blank paragraph is listed as a heading. |
| TocProofs.TocEntryShape | app/services/formatter.py:341-352 | An entry reads `heading 1` in two base-font runs, with left and first-line indent 0. |
| PipelineProofs.AllPassesFails | app/services/formatter.py:62-99 | The passes fail exactly on a document with no paragraphs and no tables. |
| PipelineProofs.TableCaptionAt | app/services/formatter.py:251-256 | The i-th table caption comes after every paragraph and figure caption of the document. |
| PipelineProofs.MarkerBeforeTableCaptions | app/services/formatter.py:248-288 | A bibliography marker of the document stays in front of the table captions. |
| PipelineProofs.TableCaptionIsNoMarker | app/services/formatter.py:297-301 | A table caption is never a bibliography marker. |
| PipelineProofs.TableCaptionsInBibliography | app/services/formatter.py:248-314 | A table caption after a bibliography heading is rewritten as an entry: justified with a hanging indent instead of centred, 14 pt instead of 12 pt, and without its final space. |
| OutputPaths.SplitExt | app/services/formatter.py:34 | Root plus extension is the path. There is an extension exactly when a character other than a dot stands between the last `/` and the last dot; it then starts at the last dot, and holds no further dot and no `/`. |
| OutputPaths.LastIndexOf | app/services/formatter.py:34 | The result is −1 or an index holding c, with no c after it. |
| OutputPaths.DefaultOutputPathSplits | app/services/formatter.py:33-35 | Splitting the default output again gives the input's root with `_formatted` appended, and the input's extension. |
| OutputPaths.DefaultOutputPathExample | app/services/formatter.py:33-35 | `a/r.docx` becomes `a/r_formatted.docx`. |
| OutputPaths.DefaultOutputPathNoExtension | app/services/formatter.py:33-35 | `dir.d/report` becomes `dir.d/report_formatted` (a dot in a directory is no extension), and `.env` becomes `.env_formatted` (nor is a leading dot). |
| OutputPaths.OutputPathGiven | app/services/formatter.py:33 | A non-empty output path is used as given, and an empty one counts as none. |
| FileManager.IsValidDocumentMeaning | app/utils/file_manager.py:59-70 | A name is accepted exactly when it ends in `.docx` or `.doc`, with letters in either case. |
| FileManager.EndsWithAnyMeaning | app/utils/file_manager.py:70 | `any(endswith)` holds exactly when the name ends with one of the listed extensions. |
| FileManager.IsValidDocumentIgnoresCase | app/utils/file_manager.py:70 | Upper-casing a name does not change whether it is accepted. |
| FileManager.IsValidDocumentSuffix | app/utils/file_manager.py:70 | Only the suffix matters: any prefix in front of an accepted name keeps it accepted. |
| FileManager.IsValidDocumentAccepts | app/config/settings.py:22 | `REPORT.DOCX` and the bare name `.doc` are accepted. |
| FileManager.IsValidDocumentRejects | app/utils/file_manager.py:70 | The empty name and `x.docx.pdf` are rejected. |

## Left out

- Loading, saving and the existence check of the input file (formatter.py:38-46, 107) are file I/O. The existence check is the parameter `inputExists`, and the loaded document is the `doc` argument.
- Page margins (formatter.py:50-54) and `_add_page_numbers` (formatter.py:118-137) set section properties and field XML that no modelled pass reads.
- Drawing detection by XPath (formatter.py:264) is the `hasImage` flag of a paragraph.
- Runs are text and font only. Hyperlinks, fields and other run content are not modelled.
- Formatter.FormatListParagraph keeps `hasImage` when it rewrites the first run's text. In the source, `first_run.text = cleaned_text` (formatter.py:179) runs for every list item with runs, and python-docx's text setter clears the run's content. A drawing held in the first run of a list item is then lost, the figure pass gives it no `Рисунок k` caption, and later figures are numbered one lower. The model still captions such a paragraph, because it does not say which run holds a drawing.
- Unicode digits are not modelled: `\d` is ASCII digits. Case mapping covers only the ASCII letters and the Cyrillic block U+0400–U+045F; Python's `lower`/`upper` also map other letters, such as Cyrillic Extended-C U+1C80–U+1C88 and the Kelvin sign U+212A, which lowers to `k`.
- Tables are a count. The source appends their captions at the end of the body instead of next to each table, and the model does the same. Paragraphs inside table cells are not modelled.
- The general exception handler (formatter.py:112-115) is modelled only for the one exception the modelled passes can raise: `doc.paragraphs[0]` on an empty body (formatter.py:327). Other failures of the source are not modelled, such as `doc.sections[0]` (formatter.py:50) on a body without section properties, or a file python-docx cannot load. The per-figure handler (formatter.py:287-288) is left out because nothing modelled raises there.
- `os.path.splitext` is modelled as POSIX `posixpath.splitext`. Windows paths with `\` are not modelled.
- `_print_statistics` (formatter.py:355-383) and all logging only write to the log.
- The Telegram handlers, `main.py`, configuration loading and `validate`, and the other file helpers of app/utils/file_manager.py (`ensure_temp_dir`, `cleanup_files`, `get_file_size_mb`) are transport and filesystem code.
- Formatter.Document.CaptionImages and Formatter.Document.FormatBibliography loop over a local copy of the paragraph sequence and store it at the end. The object identity of python-docx paragraphs, and aliasing between them, are not modelled.
- Line spacing 1.5 and the indent 1.25 cm are integers scaled by 100, without floating point.
