# Cheat-sheet column-flow layout engine

The repository draws printable cheat sheets as PDF pages. Each page has three
columns. All of its logic sits in one layout class, `CheatSheet`, which keeps
a cursor over the page grid:

- the page count;
- the column index;
- the y within the column;
- the title of the current page.

Section bands, code blocks, body paragraphs and the sub-header that
`07_ReviewSheets/generate_pdf.py` draws at once all follow three steps:

1. They fix the height to reserve. A section band reserves 7 and a sub-header
   14.8. A code block or body paragraph computes its height from its line
   count.
2. They check for space. If the block does not fit above the bottom margin,
   the cursor moves to the top of the next column. Past the last column it
   moves to column 0 of a new page, whose title gets a " (cont.)" suffix.
3. They draw the block and move the cursor down.

The other calls differ:

- `compact_list` estimates its line count from the measured width of the
  label, a space and the comma-joined items. It checks space for that estimate. It then ends 0.8 below the
  end of the wrapped text, not the estimate.
- `spacer` only moves the cursor down. It does not check for space.
- The deferred `subsection` of `07_ReviewSheets/SystemDesign/generate_pdf.py`
  only records the title and moves nothing.

The class exists in two copies, which handle sub-headers differently:

- `07_ReviewSheets/SystemDesign/generate_pdf.py` defers sub-headers.
  - `subsection` only records the title.
  - The next code block or body paragraph reserves room for the band and
    itself together, then draws the band directly above itself.
  - `section` and `new_page` discard a recorded title; `compact_list`
    leaves it alone.
  - Body lines are cut to the longest prefix that fits the measured width.
    Code lines are cut to a character budget computed from the width of "M".
- `07_ReviewSheets/generate_pdf.py` draws a sub-header at once.
  - It first reserves 14.8 mm: the band plus two code lines.
  - Code lines are cut to 95 characters and body lines to 100.

Neither copy erases and redraws an orphaned sub-header:
`SystemDesign/generate_pdf.py` defers the header, and `generate_pdf.py`
reserves 14.8 mm for it.

Modules:

- `Wrappers`: `Option`, for Python's `None`.
- `Text`: the Python string operations the engine uses. These are
  `strip`, `split("\n")`, `", ".join`, `replace(" (cont.)", "")` and the
  slice `s[:k]`, including a negative `k`. `Contains`, an occurrence test,
  is used only to state contracts.
- `Flow`: what both copies share.
  - The geometry: 3 columns, 6 mm margin, 4 mm gap, columns starting at
    y = 18.
  - The `Cursor` value and `CheckSpace`.
  - The continuation title and the block heights.
  - Python's `int()` truncation, and the `max_chars` and `est_lines`
    estimates.
- `SystemDesignSheet`: the deferring copy.
- `ReviewSheet`: the immediate copy.

Each copy is modelled in two layers:

- Pure functions `After…` give the state after each call. The lemmas are
  proved about these functions.
- A class `CheatSheet` has the source's fields and methods. Each method
  updates the fields step by step and is proved to reach the state its
  `After…` function gives.

Lengths are exact `real` millimetres. Page width and height are constructor
parameters. `get_string_width` is a parameter `measure: string -> real`.

## Model

| member | source | states |
|---|---|---|
| Text.Strip | 07_ReviewSheets/SystemDesign/generate_pdf.py:97 | `strip()` leaves a slice of the text that neither starts nor ends with whitespace, with only whitespace cut on either side |
| Text.IsSpace | 07_ReviewSheets/SystemDesign/generate_pdf.py:97 | the whitespace `strip()` removes: among ASCII exactly space, tab, line feed, vertical tab, form feed, carriage return and the four separators 0x1c-0x1f; nothing above U+3000 |
| Text.Split | 07_ReviewSheets/SystemDesign/generate_pdf.py:97 | `split("\n")` yields at least one part, and no part contains the separator |
| Text.JoinSplit | 07_ReviewSheets/SystemDesign/generate_pdf.py:97 | joining the parts of `split` on the separator gives the text back, so splitting loses nothing |
| Text.Join | 07_ReviewSheets/SystemDesign/generate_pdf.py:148 | `", ".join(items)` is empty for no items, starts with the first item and is as long as all items plus one separator between each pair of neighbours |
| Text.JoinPartsAt | 07_ReviewSheets/SystemDesign/generate_pdf.py:148 | in `", ".join(items)` every item appears, in order, at the offset that the items and separators before it take up |
| Text.JoinSepsAfter | 07_ReviewSheets/SystemDesign/generate_pdf.py:148 | in `", ".join(items)` exactly one separator follows each item but the last, and the next item starts right after it |
| Text.Lines | 07_ReviewSheets/generate_pdf.py:86 | `text.strip().split("\n")` has at least one line, so even an empty block reserves one line |
| Text.RemoveAll | 07_ReviewSheets/SystemDesign/generate_pdf.py:58 | `replace(pat, "")` never lengthens the title |
| Text.RemoveAbsent | 07_ReviewSheets/SystemDesign/generate_pdf.py:58 | `replace(pat, "")` on a title without `pat` returns the title unchanged |
| Text.PyPrefix | 07_ReviewSheets/generate_pdf.py:96 | `line[:k]` is a prefix of the line of length `min(k, len)`, and for a negative `k` all but the last `-k` characters |
| Flow.ColW | 07_ReviewSheets/SystemDesign/generate_pdf.py:24 | three columns and the two gaps between them fill the usable width exactly |
| Flow.ColLeft | 07_ReviewSheets/SystemDesign/generate_pdf.py:49-50 | each of the three columns starts at or after the left margin and ends at or before the right margin |
| Flow.ColumnsTile | 07_ReviewSheets/generate_pdf.py:23-24 | the first column starts at the left margin, the last ends at `w - margin`, and consecutive columns are `col_w + col_gap` apart, so they never overlap |
| Flow.ContinuationTitle | 07_ReviewSheets/SystemDesign/generate_pdf.py:58-59 | an overflow page's title always ends in " (cont.)" |
| Flow.ContinuationDoesNotStack | 07_ReviewSheets/SystemDesign/generate_pdf.py:58-59 | a title without " (cont.)" gets the suffix once, and a further overflow keeps the same title |
| Flow.RemoveSuffixAgain | 07_ReviewSheets/generate_pdf.py:50 | removing " (cont.)" from `t + " (cont.)"` gives back `t` when `t` has no occurrence |
| Flow.ContrivedTitleStacks | 07_ReviewSheets/generate_pdf.py:50-51 | for the title " (co (cont.)nt.)" the removal creates a new occurrence, and the continuation title is " (cont.) (cont.)" |
| Flow.CheckSpace | 07_ReviewSheets/SystemDesign/generate_pdf.py:52-61 | no change exactly when `col_y + needed <= h - margin`; otherwise the page count stays the same or grows by one with column 0; the column index stays in range; a block no taller than a column then fits |
| Flow.CheckSpaceAdvancesOnce | 07_ReviewSheets/generate_pdf.py:44-53 | a space check advances at most one column slot, to the top of a column; a new page comes only from the last column, and only a new page changes the title |
| Flow.NewPageCursor | 07_ReviewSheets/generate_pdf.py:55-60 | `new_page(title)` gives column 0, `col_y = col_top`, the given title and one more page, whatever came before |
| Flow.CodeHeight | 07_ReviewSheets/SystemDesign/generate_pdf.py:98 | a code block reserves at least its 2 of padding, and more than a body paragraph of as many lines |
| Flow.BodyHeight | 07_ReviewSheets/SystemDesign/generate_pdf.py:121 | a body paragraph reserves at least its 1 of padding |
| Flow.ListHeightCoversText | 07_ReviewSheets/SystemDesign/generate_pdf.py:151-153 | the height a compact list reserves is more than 3.2 per available width of measured text, plus 1 |
| Flow.HeightPerLine | 07_ReviewSheets/generate_pdf.py:87 | each further line adds 3.4 to a code block and 3.2 to a body paragraph or list; empty blocks keep 2 and 1 |
| Flow.TruncToward0 | 07_ReviewSheets/SystemDesign/generate_pdf.py:107 | Python's `int()` truncates toward zero: within one below a non-negative argument, within one above a negative one |
| Flow.TruncMonotone | 07_ReviewSheets/SystemDesign/generate_pdf.py:152 | `int()` is monotone |
| Flow.MaxChars | 07_ReviewSheets/SystemDesign/generate_pdf.py:106-107 | with a positive width for "M" and a column at least 2 wide, `max_chars` is the largest count of "M"-wide characters whose width is at most `col_w - 2` |
| Flow.EstLines | 07_ReviewSheets/generate_pdf.py:128 | `est_lines >= 1` |
| Flow.EstLinesBracket | 07_ReviewSheets/SystemDesign/generate_pdf.py:151-153 | `est_lines` lines of width `col_w - 3` hold the measured text, and one line fewer is not wider than it |
| Flow.EstLinesAtLeast | 07_ReviewSheets/SystemDesign/generate_pdf.py:151-153 | text at least `k` available widths wide is estimated at more than `k` lines |
| Flow.EstLinesMonotone | 07_ReviewSheets/SystemDesign/generate_pdf.py:152 | wider text never gets fewer estimated lines |
| SystemDesignSheet.Reserve | 07_ReviewSheets/SystemDesign/generate_pdf.py:99-103 | the reservation that opens a code block or body paragraph keeps the column index in range |
| SystemDesignSheet.HeaderStaysWithBlock | 07_ReviewSheets/SystemDesign/generate_pdf.py:99-103 | a pending sub-header is drawn exactly when one is pending, on the same page and in the same column as its block, 5.5 above it; the block lands where one check for `5.5 + needed` put it; when that fits a column, the block ends above the bottom margin |
| SystemDesignSheet.AfterFlush | 07_ReviewSheets/SystemDesign/generate_pdf.py:63-73 | flushing clears the pending title, keeps page, column and title, and moves down by 5.5 exactly when a title was pending |
| SystemDesignSheet.AfterNewPage | 07_ReviewSheets/SystemDesign/generate_pdf.py:75-80 | `new_page` gives one more page, column 0, `col_top`, the given title and no pending title |
| SystemDesignSheet.AfterSection | 07_ReviewSheets/SystemDesign/generate_pdf.py:82-91 | `section` discards the pending title, keeps the column in range and, where a column can hold 7, leaves the band above the bottom margin |
| SystemDesignSheet.AfterSubsection | 07_ReviewSheets/SystemDesign/generate_pdf.py:93-94 | `subsection` records the title and leaves the cursor as it was |
| SystemDesignSheet.AfterCodeBlock | 07_ReviewSheets/SystemDesign/generate_pdf.py:96-117 | `code_block` consumes the pending title and keeps the column in range |
| SystemDesignSheet.AfterBodyText | 07_ReviewSheets/SystemDesign/generate_pdf.py:119-138 | `body_text` consumes the pending title and keeps the column in range |
| SystemDesignSheet.AfterCompactList | 07_ReviewSheets/SystemDesign/generate_pdf.py:140-166 | `compact_list` keeps the column in range |
| SystemDesignSheet.AfterSpacer | 07_ReviewSheets/SystemDesign/generate_pdf.py:168-169 | `spacer(dy)` moves down by exactly `dy` and changes neither page, column, title nor pending title |
| SystemDesignSheet.PendingLifecycle | 07_ReviewSheets/SystemDesign/generate_pdf.py:75-94 | `subsection` records its title over any earlier one and moves nothing; `section` and `new_page` discard it; `compact_list` and `spacer` keep it; code and body blocks consume it |
| SystemDesignSheet.ListBetweenSubsectionsDropsFirst | 07_ReviewSheets/SystemDesign/generate_pdf.py:93-94 | a sub-header, then a compact list, then a second sub-header: the first title is never drawn, and the next block draws only the second |
| SystemDesignSheet.NewPageForgets | 07_ReviewSheets/SystemDesign/generate_pdf.py:75-80 | `new_page` gives column 0, `col_top`, no pending title and the given title; two states differ afterwards only in page count |
| SystemDesignSheet.NewPageThenSection | 07_ReviewSheets/SystemDesign/generate_pdf.py:75-91 | a section right after `new_page` is at the top of column 0 of the new page, 6.5 below `col_top`, with no pending title, whatever the state before |
| SystemDesignSheet.SevenSectionsSpillOnce | 07_ReviewSheets/SystemDesign/generate_pdf.py:82-138 | on a page 46 high, six section-and-one-line pairs fill the three columns of the first page, and a seventh section lands at the top of column 0 of page 2 under the continuation title |
| SystemDesignSheet.SectionPlacement | 07_ReviewSheets/SystemDesign/generate_pdf.py:82-91 | when 7 fits above the bottom margin the band stays in place and the cursor ends 6.5 lower; otherwise it moves one column slot on and ends 6.5 below the column top |
| SystemDesignSheet.CodeBlockPlacement | 07_ReviewSheets/SystemDesign/generate_pdf.py:96-117 | when the reservation fits, a code block stays in the column and ends the reservation plus 0.5 below the cursor; otherwise it moves one column slot on and ends that far below the column top |
| SystemDesignSheet.BodyTextPlacement | 07_ReviewSheets/SystemDesign/generate_pdf.py:119-138 | the same for a body paragraph, which advances by the reservation without the 0.5 |
| SystemDesignSheet.LongestFitUnique | 07_ReviewSheets/SystemDesign/generate_pdf.py:130-135 | only one prefix of a line is the longest that fits, so the truncation's result is determined |
| SystemDesignSheet.LongestFittingPrefix | 07_ReviewSheets/SystemDesign/generate_pdf.py:133-135 | the loop returns a prefix of the line that measures at most the available width, or the empty string, and every longer prefix measures more |
| SystemDesignSheet.CheatSheet.constructor | 07_ReviewSheets/SystemDesign/generate_pdf.py:17-31 | the engine starts in column 0 at `col_top`, with no page, an empty title and no pending title |
| SystemDesignSheet.CheatSheet.AddPage | 07_ReviewSheets/SystemDesign/generate_pdf.py:57 | adding a page increments the page count and changes nothing else |
| SystemDesignSheet.CheatSheet.PageHeader | 07_ReviewSheets/SystemDesign/generate_pdf.py:33-41 | `page_header` sets the page title and moves the cursor to `col_top` |
| SystemDesignSheet.CheatSheet.ColLeft | 07_ReviewSheets/SystemDesign/generate_pdf.py:49-50 | the current column's x lies between the margins, with the column width to its right |
| SystemDesignSheet.CheatSheet.CheckSpace | 07_ReviewSheets/SystemDesign/generate_pdf.py:52-61 | the field updates reach `Flow.CheckSpace` of the old cursor and keep the column index in range |
| SystemDesignSheet.CheatSheet.FlushPendingSubsect | 07_ReviewSheets/SystemDesign/generate_pdf.py:63-73 | reaches `AfterFlush`, and draws the pending band at the cursor when one is pending |
| SystemDesignSheet.CheatSheet.NewPage | 07_ReviewSheets/SystemDesign/generate_pdf.py:75-80 | reaches `AfterNewPage` |
| SystemDesignSheet.CheatSheet.Section | 07_ReviewSheets/SystemDesign/generate_pdf.py:82-91 | reaches `AfterSection`, with the band drawn where the space check for 7 left the cursor |
| SystemDesignSheet.CheatSheet.Subsection | 07_ReviewSheets/SystemDesign/generate_pdf.py:93-94 | only records the title |
| SystemDesignSheet.CheatSheet.ReserveBlock | 07_ReviewSheets/SystemDesign/generate_pdf.py:99-103 | the two branches that open a block reach `Reserve` and draw its header |
| SystemDesignSheet.CheatSheet.CodeBlock | 07_ReviewSheets/SystemDesign/generate_pdf.py:96-117 | reaches `AfterCodeBlock`; one row per line, 3.4 apart from 1 below the reserved top, each line cut to `max_chars` |
| SystemDesignSheet.CheatSheet.PlaceCode | 07_ReviewSheets/SystemDesign/generate_pdf.py:98-117 | the same, for the already split lines, with the loop's invariants |
| SystemDesignSheet.CheatSheet.BodyText | 07_ReviewSheets/SystemDesign/generate_pdf.py:119-138 | reaches `AfterBodyText`; one row per line, 3.2 apart, each the longest prefix measuring at most `col_w - 3` |
| SystemDesignSheet.CheatSheet.PlaceBody | 07_ReviewSheets/SystemDesign/generate_pdf.py:121-138 | the same, for the already split lines, with the loop's invariants |
| SystemDesignSheet.CheatSheet.CompactList | 07_ReviewSheets/SystemDesign/generate_pdf.py:140-166 | reaches `AfterCompactList` with the estimated line count; the label sits at the checked cursor, and the items start after the label's width plus 1 |
| SystemDesignSheet.CheatSheet.Spacer | 07_ReviewSheets/SystemDesign/generate_pdf.py:168-169 | reaches `AfterSpacer` |
| ReviewSheet.AfterSection | 07_ReviewSheets/generate_pdf.py:62-70 | `section` keeps the column in range and, where a column can hold 7, leaves the band above the bottom margin |
| ReviewSheet.AfterSubsection | 07_ReviewSheets/generate_pdf.py:72-81 | `subsection` keeps the column in range; its exact placement is in `ReviewSheet.BlockPlacement` |
| ReviewSheet.AfterCodeBlock | 07_ReviewSheets/generate_pdf.py:83-98 | `code_block` keeps the column in range and, where a column can hold the block, ends it above the bottom margin |
| ReviewSheet.AfterBodyText | 07_ReviewSheets/generate_pdf.py:100-112 | `body_text` keeps the column in range and, where a column can hold the paragraph, ends it above the bottom margin |
| ReviewSheet.AfterCompactList | 07_ReviewSheets/generate_pdf.py:114-142 | `compact_list` keeps the column in range |
| ReviewSheet.AfterSpacer | 07_ReviewSheets/generate_pdf.py:144-145 | `spacer(dy)` moves down by exactly `dy` and never changes page, column or title |
| ReviewSheet.SubsectionKeepsRoom | 07_ReviewSheets/generate_pdf.py:72-81 | reserving 14.8 and stepping 5.5 leaves at least 9.3 below the band, so a code block of up to two lines stays in the band's column |
| ReviewSheet.SubsectionCanStillStrand | 07_ReviewSheets/generate_pdf.py:72-81 | the reservation does not rule orphans out: a band that fits, followed by a three-line code block that does not, leaves the band alone and moves the block one column slot on |
| ReviewSheet.BlockPlacement | 07_ReviewSheets/generate_pdf.py:62-112 | a section, sub-header, code block or body paragraph whose reservation (7, 14.8, the block height) fits stays in the column and moves down by 6.5, 5.5, `3.4n + 2.5` or `3.2n + 1`; otherwise it moves one column slot on and lands the same distance below the column top |
| ReviewSheet.NewPageThenSection | 07_ReviewSheets/generate_pdf.py:55-70 | a section right after `new_page` is at the top of column 0 of the new page, 6.5 below `col_top`, whatever the cursor was before |
| ReviewSheet.SevenSectionsSpillOnce | 07_ReviewSheets/generate_pdf.py:62-112 | on a page 46 high, six section-and-one-line pairs fill the three columns of the first page, and a seventh section lands at the top of column 0 of page 2 under the continuation title |
| ReviewSheet.CheatSheet.constructor | 07_ReviewSheets/generate_pdf.py:17-29 | the engine starts in column 0 at `col_top`, with no page and an empty title |
| ReviewSheet.CheatSheet.AddPage | 07_ReviewSheets/generate_pdf.py:49 | adding a page increments the page count and changes nothing else |
| ReviewSheet.CheatSheet.PageHeader | 07_ReviewSheets/generate_pdf.py:31-39 | `page_header` sets the page title and moves the cursor to `col_top` |
| ReviewSheet.CheatSheet.ColLeft | 07_ReviewSheets/generate_pdf.py:41-42 | the current column's x lies between the margins, with the column width to its right |
| ReviewSheet.CheatSheet.CheckSpace | 07_ReviewSheets/generate_pdf.py:44-53 | the field updates reach `Flow.CheckSpace` of the old cursor and keep the column index in range |
| ReviewSheet.CheatSheet.NewPage | 07_ReviewSheets/generate_pdf.py:55-60 | reaches `Flow.NewPageCursor` |
| ReviewSheet.CheatSheet.Section | 07_ReviewSheets/generate_pdf.py:62-70 | reaches `AfterSection`, with the band drawn where the space check for 7 left the cursor |
| ReviewSheet.CheatSheet.Subsection | 07_ReviewSheets/generate_pdf.py:72-81 | reaches `AfterSubsection`, with the band drawn where the space check for 14.8 left the cursor |
| ReviewSheet.CheatSheet.CodeBlock | 07_ReviewSheets/generate_pdf.py:83-98 | reaches `AfterCodeBlock`; one row per line, 3.4 apart from 1 below the checked cursor, each line's first 95 characters |
| ReviewSheet.CheatSheet.PlaceCode | 07_ReviewSheets/generate_pdf.py:86-98 | the same, for the already split lines, with the loop's invariants |
| ReviewSheet.CheatSheet.BodyText | 07_ReviewSheets/generate_pdf.py:100-112 | reaches `AfterBodyText`; one row per line, 3.2 apart from the checked cursor, each line's first 100 characters |
| ReviewSheet.CheatSheet.PlaceBody | 07_ReviewSheets/generate_pdf.py:104-112 | the same, for the already split lines, with the loop's invariants |
| ReviewSheet.CheatSheet.CompactList | 07_ReviewSheets/generate_pdf.py:114-142 | reaches `AfterCompactList` with the estimated line count; the label sits at the checked cursor, and the items start after the label's width plus 1 |
| ReviewSheet.CheatSheet.Spacer | 07_ReviewSheets/generate_pdf.py:144-145 | reaches `AfterSpacer` |

## Left out

- Drawing: `set_fill_color`, `set_text_color`, `set_font`, `rect`, `cell`, `set_xy` and `output` are drawing-library side effects. The model records only where bands and rows are placed and with what text. Colours, fonts and band heights are not modelled.
- `footer`, `alias_nb_pages` and the page-number text: page decoration produced by the drawing library.
- `build()` in both files: literal sheet content, the output path and file output.
- `multi_cell` wrapping: the y at which the wrapped items of `compact_list` end is a parameter `wrapBottom`, because it depends on the library's line breaking.
- Font metrics: `get_string_width` is a parameter `measure`, and separate parameters stand for the fonts `compact_list` measures in. No property of the metric is assumed.
- Floating point: lengths are exact reals, so a comparison that sits exactly at the bottom margin may differ from the source's float arithmetic.
- Page size: the width and height come from the page format. The model takes them as constructor parameters.
- SystemDesignSheet.CheatSheet.CodeBlock: requires a non-zero width for "M". The source divides by it and would raise `ZeroDivisionError`, which the model does not represent.
- SystemDesignSheet.CheatSheet.PlaceCode: same requirement as `CodeBlock`.
- SystemDesignSheet.CheatSheet.CompactList: requires `col_w - 3` to be non-zero, because of the same division.
- ReviewSheet.CheatSheet.CompactList: requires `col_w - 3` to be non-zero, because of the same division.
- Flow.ContinuationDoesNotStack: covers only titles that do not already contain " (cont.)". For other titles the suffixes can stack; `Flow.ContrivedTitleStacks` shows an example.
- The block methods (`CodeBlock`, `BodyText`) each delegate to `PlaceCode` or `PlaceBody` after splitting the text. This keeps the proofs small. The source does the split and the placement in one method.
- The page count of the drawing library is modelled by a `pages` field that `AddPage` increments. Page contents are not kept.
