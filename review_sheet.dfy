/** The cheat-sheet engine of the Swift / iOS review sheet. It draws a
    sub-header at once, after reserving room for the band and two code
    lines, and cuts code and body lines to fixed character counts. */
module ReviewSheet {
  import opened Text
  import opened Flow

  /** What `subsection` reserves: its band and at least two code lines. */
  const SubsectNeed: real := 6.0 + 2.0 * 3.4 + 2.0
  /** Characters kept of each code line and of each body line. */
  const CodeChars: int := 95
  const BodyChars: int := 100

  // ------------------------------------------------ the cursor after each call

  /** `section`: reserve 7, step 6.5. */
  function AfterSection(h: real, c: Cursor): (r: Cursor)
    ensures ColOk(c) ==> ColOk(r)
    ensures SectionNeed <= Bottom(h) - ColTop ==> r.y + (SectionNeed - SectionStep) <= Bottom(h)
  {
    var d := CheckSpace(h, c, SectionNeed);
    d.(y := d.y + SectionStep)
  }

  /** `subsection`: reserve 14.8, step 5.5. */
  function AfterSubsection(h: real, c: Cursor): (r: Cursor)
    ensures ColOk(c) ==> ColOk(r)
  {
    var d := CheckSpace(h, c, SubsectNeed);
    d.(y := d.y + SubsectStep)
  }

  /** `code_block` of `n` lines. */
  function AfterCodeBlock(h: real, c: Cursor, n: nat): (r: Cursor)
    ensures ColOk(c) ==> ColOk(r)
    ensures CodeHeight(n) <= Bottom(h) - ColTop ==> r.y - 0.5 <= Bottom(h)
  {
    var d := CheckSpace(h, c, CodeHeight(n));
    d.(y := d.y + CodeHeight(n) + 0.5)
  }

  /** `body_text` of `n` lines. */
  function AfterBodyText(h: real, c: Cursor, n: nat): (r: Cursor)
    ensures ColOk(c) ==> ColOk(r)
    ensures BodyHeight(n) <= Bottom(h) - ColTop ==> r.y <= Bottom(h)
  {
    var d := CheckSpace(h, c, BodyHeight(n));
    d.(y := d.y + BodyHeight(n))
  }

  /** `compact_list` estimated at `est` lines, its wrapped text ending at
      `wrapBottom`. */
  function AfterCompactList(h: real, c: Cursor, est: int, wrapBottom: real): (r: Cursor)
    ensures ColOk(c) ==> ColOk(r)
  {
    var d := CheckSpace(h, c, ListHeight(est));
    d.(y := wrapBottom + 0.8)
  }

  /** `spacer(dy)`: no space check; moves down by exactly `dy` and never
      changes column, page or title, even past the bottom margin. */
  function AfterSpacer(c: Cursor, dy: real): (r: Cursor)
    ensures r.pages == c.pages && r.col == c.col && r.title == c.title && r.y - c.y == dy
  {
    c.(y := c.y + dy)
  }

  // ------------------------------------------------------------- properties

  /** The sub-header reservation: on a page tall enough for it, the band is
      drawn with at least 9.3 mm left below it in the same column, so a
      code block of up to two lines that follows stays in that column. */
  lemma SubsectionKeepsRoom(h: real, c: Cursor)
    requires SubsectNeed <= Bottom(h) - ColTop
    ensures AfterSubsection(h, c).y + (SubsectNeed - SubsectStep) <= Bottom(h)
    ensures SubsectNeed - SubsectStep == 9.3
    ensures forall n: nat :: n <= 2 ==>
      CheckSpace(h, AfterSubsection(h, c), CodeHeight(n)) == AfterSubsection(h, c)
  {
  }

  /** The reservation reduces orphans but does not rule them out: when the
      band fits but the band and a three-line code block do not, the band
      stays in its column and the code block moves on to the next one. */
  lemma SubsectionCanStillStrand(h: real, c: Cursor)
    requires ColOk(c)
    requires c.y + SubsectNeed <= Bottom(h) < c.y + SubsectStep + CodeHeight(3)
    ensures AfterSubsection(h, c).pages == c.pages && AfterSubsection(h, c).col == c.col
    ensures Slot(AfterCodeBlock(h, AfterSubsection(h, c), 3)) == Slot(c) + 1
  {
    CheckSpaceAdvancesOnce(h, AfterSubsection(h, c), CodeHeight(3));
  }

  /** A section right after `new_page` lands at the top of column 0 of the
      new page, whatever the cursor was before, when a column can hold it. */
  lemma NewPageThenSection(h: real, c: Cursor, title: string)
    requires SectionNeed <= Bottom(h) - ColTop
    ensures AfterSection(h, NewPageCursor(c, title)) == Cursor(c.pages + 1, 0, ColTop + SectionStep, title)
  {
  }

  /** A section band followed by a one-line body paragraph. */
  function SectionWithLine(h: real, c: Cursor): Cursor {
    AfterBodyText(h, AfterSection(h, c), 1)
  }

  /** `k` such pairs in a row. */
  function SectionsWithLine(h: real, c: Cursor, k: nat): Cursor
    decreases k
  {
    if k == 0 then c else SectionsWithLine(h, SectionWithLine(h, c), k - 1)
  }

  /** On a page 46 high, each column holds two section-and-line pairs: six
      fill the first page, and a seventh section starts the second. */
  lemma SevenSectionsSpillOnce(h: real, title: string)
    requires h == 46.0
    ensures var c6 := SectionsWithLine(h, NewPageCursor(Cursor(0, 0, ColTop, ""), title), 6);
      c6.pages == 1 && c6.col == ColCount - 1 &&
      AfterSection(h, c6) == Cursor(2, 0, ColTop + SectionStep, ContinuationTitle(title))
  {
    var c0 := NewPageCursor(Cursor(0, 0, ColTop, ""), title);
    var c1 := SectionWithLine(h, c0);
    assert c1 == Cursor(1, 0, 28.7, title);
    var c2 := SectionWithLine(h, c1);
    assert c2 == Cursor(1, 0, 39.4, title);
    var c3 := SectionWithLine(h, c2);
    assert c3 == Cursor(1, 1, 28.7, title);
    var c4 := SectionWithLine(h, c3);
    assert c4 == Cursor(1, 1, 39.4, title);
    var c5 := SectionWithLine(h, c4);
    assert c5 == Cursor(1, 2, 28.7, title);
    var c6 := SectionWithLine(h, c5);
    assert c6 == Cursor(1, 2, 39.4, title);
    assert SectionsWithLine(h, c5, 1) == c6;
    assert SectionsWithLine(h, c4, 2) == c6;
    assert SectionsWithLine(h, c3, 3) == c6;
    assert SectionsWithLine(h, c2, 4) == c6;
    assert SectionsWithLine(h, c1, 5) == c6;
  }

  /** Where a section band, a sub-header, a code block and a body paragraph
      land: when the reserved height fits, in the same column, below the
      cursor by 6.5, by 5.5, by the block height plus 0.5, and by the block
      height; otherwise
      the same distance below the top of the next column slot. */
  lemma BlockPlacement(h: real, c: Cursor, n: nat)
    requires ColOk(c)
    ensures c.y + SectionNeed <= Bottom(h) ==>
      AfterSection(h, c) == c.(y := c.y + SectionStep)
    ensures c.y + SectionNeed > Bottom(h) ==>
      Slot(AfterSection(h, c)) == Slot(c) + 1 && AfterSection(h, c).y == ColTop + SectionStep
    ensures c.y + CodeHeight(n) <= Bottom(h) ==>
      AfterCodeBlock(h, c, n) == c.(y := c.y + 3.4 * n as real + 2.5)
    ensures c.y + CodeHeight(n) > Bottom(h) ==>
      Slot(AfterCodeBlock(h, c, n)) == Slot(c) + 1 && AfterCodeBlock(h, c, n).y == ColTop + 3.4 * n as real + 2.5
    ensures c.y + BodyHeight(n) <= Bottom(h) ==>
      AfterBodyText(h, c, n) == c.(y := c.y + 3.2 * n as real + 1.0)
    ensures c.y + BodyHeight(n) > Bottom(h) ==>
      Slot(AfterBodyText(h, c, n)) == Slot(c) + 1 && AfterBodyText(h, c, n).y == ColTop + 3.2 * n as real + 1.0
    ensures c.y + SubsectNeed <= Bottom(h) ==>
      AfterSubsection(h, c) == c.(y := c.y + SubsectStep)
    ensures c.y + SubsectNeed > Bottom(h) ==>
      Slot(AfterSubsection(h, c)) == Slot(c) + 1 && AfterSubsection(h, c).y == ColTop + SubsectStep
  {
    CheckSpaceAdvancesOnce(h, c, SectionNeed);
    CheckSpaceAdvancesOnce(h, c, SubsectNeed);
    CheckSpaceAdvancesOnce(h, c, CodeHeight(n));
    CheckSpaceAdvancesOnce(h, c, BodyHeight(n));
  }

  // ------------------------------------------------------------------ engine

  class CheatSheet {
    /** Page width and height. */
    const w: real
    const h: real
    const colW: real
    var colIdx: int
    var colY: real
    /** Pages added so far. */
    var pages: nat
    var currentPageTitle: string

    ghost predicate Valid()
      reads this
    {
      0 <= colIdx < ColCount && colW == ColW(w)
    }

    function Cur(): Cursor
      reads this
    {
      Cursor(pages, colIdx, colY, currentPageTitle)
    }

    /** `__init__`: fixed geometry, column 0 at the top, no page yet. */
    constructor (pageW: real, pageH: real)
      ensures Valid() && w == pageW && h == pageH
      ensures Cur() == Cursor(0, 0, ColTop, "")
    {
      w, h := pageW, pageH;
      colW := (UsableW(pageW) - (ColCount - 1) as real * ColGap) / ColCount as real;
      colIdx := 0;
      colY := ColTop;
      pages := 0;
      currentPageTitle := "";
    }

    /** The drawing library's `add_page`, as far as the layout sees it. */
    method AddPage()
      modifies this
      ensures Cur() == old(Cur()).(pages := old(pages) + 1)
    {
      pages := pages + 1;
    }

    /** `page_header`. */
    method PageHeader(title: string)
      modifies this
      ensures Cur() == old(Cur()).(title := title, y := ColTop)
    {
      currentPageTitle := title;
      colY := ColTop;
    }

    /** `_col_left`: the x of the current column lies between the margins
        with a full column width to its right. */
    method ColLeft() returns (x: real)
      requires Valid()
      ensures x == Flow.ColLeft(w, colIdx)
      ensures colW >= 0.0 ==> Margin <= x && x + colW <= w - Margin
    {
      x := Margin + colIdx as real * (colW + ColGap);
      ColumnsTile(w, colIdx);
      ColumnsTile(w, colIdx + 1);
    }

    /** `_check_space`. */
    method CheckSpace(needed: real)
      requires Valid()
      modifies this
      ensures Valid()
      ensures Cur() == Flow.CheckSpace(h, old(Cur()), needed)
    {
      if colY + needed > h - Margin {
        colIdx := colIdx + 1;
        colY := ColTop;
        if colIdx >= ColCount {
          AddPage();
          var base := RemoveAll(currentPageTitle, Cont);
          PageHeader(base + Cont);
          colIdx := 0;
          colY := ColTop;
        }
      }
    }

    /** `new_page`. */
    method NewPage(title: string)
      requires Valid()
      modifies this
      ensures Valid()
      ensures Cur() == NewPageCursor(old(Cur()), title)
    {
      AddPage();
      PageHeader(title);
      colIdx := 0;
      colY := ColTop;
    }

    /** `section`: returns the band it drew. */
    method Section(title: string) returns (band: Cell)
      requires Valid()
      modifies this
      ensures Valid()
      ensures Cur() == AfterSection(h, old(Cur()))
      ensures band == BandAt(w, Flow.CheckSpace(h, old(Cur()), SectionNeed), title)
    {
      CheckSpace(SectionNeed);
      var x := ColLeft();
      band := Cell(pages, colIdx, x, colY, "  " + title);
      colY := colY + SectionStep;
    }

    /** `subsection`: returns the band it drew. */
    method Subsection(title: string) returns (band: Cell)
      requires Valid()
      modifies this
      ensures Valid()
      ensures Cur() == AfterSubsection(h, old(Cur()))
      ensures band == BandAt(w, Flow.CheckSpace(h, old(Cur()), SubsectNeed), title)
    {
      CheckSpace(SubsectNeed);
      var x := ColLeft();
      band := Cell(pages, colIdx, x, colY, "  " + title);
      colY := colY + SubsectStep;
    }

    /** `code_block`: one cell per line, each cut to its first 95 characters. */
    method CodeBlock(text: string) returns (rows: seq<Cell>)
      requires Valid()
      modifies this
      ensures Valid()
      ensures Cur() == AfterCodeBlock(h, old(Cur()), |Lines(text)|)
      ensures var d := Flow.CheckSpace(h, old(Cur()), CodeHeight(|Lines(text)|));
        |rows| == |Lines(text)| &&
        forall i :: 0 <= i < |rows| ==>
          rows[i] == Cell(d.pages, d.col, Flow.ColLeft(w, d.col) + 1.5, d.y + 1.0 + 3.4 * i as real,
                          PyPrefix(Lines(text)[i], CodeChars))
    {
      var lines := Lines(text);
      rows := PlaceCode(lines);
    }

    /** `code_block` once the text is split into lines. */
    method PlaceCode(lines: seq<string>) returns (rows: seq<Cell>)
      requires Valid()
      modifies this
      ensures Valid()
      ensures Cur() == AfterCodeBlock(h, old(Cur()), |lines|)
      ensures var d := Flow.CheckSpace(h, old(Cur()), CodeHeight(|lines|));
        |rows| == |lines| &&
        forall i :: 0 <= i < |rows| ==>
          rows[i] == Cell(d.pages, d.col, Flow.ColLeft(w, d.col) + 1.5, d.y + 1.0 + 3.4 * i as real,
                          PyPrefix(lines[i], CodeChars))
    {
      var needed := CodeHeight(|lines|);
      CheckSpace(needed);
      var x := ColLeft();
      var yStart := colY;
      var cy := yStart + 1.0;
      rows := [];
      for i := 0 to |lines|
        invariant cy == yStart + 1.0 + 3.4 * i as real
        invariant |rows| == i
        invariant forall k :: 0 <= k < i ==>
          rows[k] == Cell(pages, colIdx, x + 1.5, yStart + 1.0 + 3.4 * k as real, PyPrefix(lines[k], CodeChars))
      {
        rows := rows + [Cell(pages, colIdx, x + 1.5, cy, PyPrefix(lines[i], CodeChars))];
        cy := cy + 3.4;
      }
      colY := yStart + needed + 0.5;
    }

    /** `body_text`: one cell per line, each cut to its first 100 characters. */
    method BodyText(text: string) returns (rows: seq<Cell>)
      requires Valid()
      modifies this
      ensures Valid()
      ensures Cur() == AfterBodyText(h, old(Cur()), |Lines(text)|)
      ensures var d := Flow.CheckSpace(h, old(Cur()), BodyHeight(|Lines(text)|));
        |rows| == |Lines(text)| &&
        forall i :: 0 <= i < |rows| ==>
          rows[i] == Cell(d.pages, d.col, Flow.ColLeft(w, d.col) + 1.5, d.y + 3.2 * i as real,
                          PyPrefix(Lines(text)[i], BodyChars))
    {
      var lines := Lines(text);
      rows := PlaceBody(lines);
    }

    /** `body_text` once the text is split into lines. */
    method PlaceBody(lines: seq<string>) returns (rows: seq<Cell>)
      requires Valid()
      modifies this
      ensures Valid()
      ensures Cur() == AfterBodyText(h, old(Cur()), |lines|)
      ensures var d := Flow.CheckSpace(h, old(Cur()), BodyHeight(|lines|));
        |rows| == |lines| &&
        forall i :: 0 <= i < |rows| ==>
          rows[i] == Cell(d.pages, d.col, Flow.ColLeft(w, d.col) + 1.5, d.y + 3.2 * i as real,
                          PyPrefix(lines[i], BodyChars))
    {
      var needed := BodyHeight(|lines|);
      CheckSpace(needed);
      var x := ColLeft();
      ghost var top := Cur();
      rows := [];
      for i := 0 to |lines|
        invariant Cur() == top.(y := top.y + 3.2 * i as real)
        invariant |rows| == i
        invariant forall k :: 0 <= k < i ==>
          rows[k] == Cell(top.pages, top.col, x + 1.5, top.y + 3.2 * k as real, PyPrefix(lines[k], BodyChars))
      {
        rows := rows + [Cell(pages, colIdx, x + 1.5, colY, PyPrefix(lines[i], BodyChars))];
        colY := colY + 3.2;
      }
      colY := colY + 1.0;
    }

    /** `compact_list`: as in the other engine, the height comes from the
        measured width of the label and the comma-joined items.
        `measureLabel` and `measureText` are string widths in the label font
        and the list font; `wrapBottom` is the y at which the drawing
        library's wrapped cell ends. Returns the label cell and the x of the
        items cell. */
    method CompactList(labelText: string, items: seq<string>, measureLabel: string -> real,
                       measureText: string -> real, wrapBottom: real) returns (labelCell: Cell, itemsX: real)
      requires Valid()
      requires colW - 3.0 != 0.0
      modifies this
      ensures Valid()
      ensures var est := EstLines(measureText(labelText + " " + Join(items, ", ")), colW - 3.0);
        var d := Flow.CheckSpace(h, old(Cur()), ListHeight(est));
        Cur() == AfterCompactList(h, old(Cur()), est, wrapBottom) &&
        labelCell == Cell(d.pages, d.col, Flow.ColLeft(w, d.col) + 1.5, d.y, labelText + " ") &&
        itemsX == labelCell.x + measureLabel(labelText + " ") + 1.0
    {
      var labelW := measureLabel(labelText + " ") + 1.0;
      var itemStr := Join(items, ", ");
      var full := labelText + " " + itemStr;
      var availW := colW - 3.0;
      var estLines := EstLines(measureText(full), availW);
      var needed := ListHeight(estLines);
      CheckSpace(needed);
      var x := ColLeft();
      labelCell := Cell(pages, colIdx, x + 1.5, colY, labelText + " ");
      itemsX := x + 1.5 + labelW;
      colY := wrapBottom + 0.8;
    }

    /** `spacer`. */
    method Spacer(dy: real := 2.0)
      requires Valid()
      modifies this
      ensures Valid()
      ensures Cur() == AfterSpacer(old(Cur()), dy)
    {
      colY := colY + dy;
    }
  }
}
