/** The cheat-sheet engine of the system-design sheet. It avoids orphaned
    sub-headers by deferring them: `subsection` only records the title, and
    the next code block or body paragraph reserves room for the header and
    itself together and then draws the header directly above itself. A
    section or a new page discards a recorded title, and a compact list
    leaves it alone. */
module SystemDesignSheet {
  import opened Wrappers
  import opened Text
  import opened Flow

  /** What the layout depends on: the cursor and the sub-header title that
      has been announced but not drawn yet. */
  datatype Sheet = Sheet(cur: Cursor, pending: Option<string>)

  /** The position a code block or body paragraph starts at once its space
      is reserved, and the pending sub-header band drawn there first. */
  datatype Reservation = Reservation(cur: Cursor, header: Option<Cell>)

  /** Reserve `needed` for a block; with a pending sub-header, reserve the
      header and the block together, then draw the header and step below it. */
  function Reserve(w: real, h: real, s: Sheet, needed: real): (r: Reservation)
    ensures ColOk(s.cur) ==> ColOk(r.cur)
  {
    match s.pending
    case None => Reservation(CheckSpace(h, s.cur, needed), None)
    case Some(title) =>
      var c := CheckSpace(h, s.cur, SubsectStep + needed);
      Reservation(c.(y := c.y + SubsectStep), Some(BandAt(w, c, title)))
  }

  /** The height a block reserves: the block itself, plus the sub-header
      band when one is pending. */
  function Reserved(s: Sheet, needed: real): real {
    if s.pending.Some? then SubsectStep + needed else needed
  }

  /** A pending sub-header is drawn exactly when one is pending, in the same
      page and column as the block that follows, immediately above it; the
      block then starts where one space check on the combined height put
      the cursor, plus the band; and when the combined height fits in an
      empty column, the block ends above the bottom margin. */
  lemma HeaderStaysWithBlock(w: real, h: real, s: Sheet, needed: real)
    ensures var r := Reserve(w, h, s, needed);
      r.header.Some? <==> s.pending.Some?
    ensures var r := Reserve(w, h, s, needed);
      r.header.Some? ==>
        r.header.value == Cell(r.cur.pages, r.cur.col, Flow.ColLeft(w, r.cur.col),
                               r.cur.y - SubsectStep, "  " + s.pending.value)
    ensures var r := Reserve(w, h, s, needed);
      var c := CheckSpace(h, s.cur, Reserved(s, needed));
      r.cur.pages == c.pages && r.cur.col == c.col && r.cur.title == c.title
    ensures Reserved(s, needed) <= Bottom(h) - ColTop ==>
      Reserve(w, h, s, needed).cur.y + needed <= Bottom(h)
  {
  }

  // ------------------------------------------------ the state after each call

  /** `_flush_pending_subsect`: with a pending title, draw it and step below it. */
  function AfterFlush(s: Sheet): (r: Sheet)
    ensures r.pending == None
    ensures r.cur.pages == s.cur.pages && r.cur.col == s.cur.col && r.cur.title == s.cur.title
    ensures r.cur.y == s.cur.y + (if s.pending.Some? then SubsectStep else 0.0)
  {
    if s.pending.Some? then Sheet(s.cur.(y := s.cur.y + SubsectStep), None) else s
  }

  /** `new_page`. */
  function AfterNewPage(s: Sheet, title: string): (r: Sheet)
    ensures r.pending == None && ColOk(r.cur)
    ensures r.cur.pages == s.cur.pages + 1 && r.cur.col == 0 && r.cur.y == ColTop && r.cur.title == title
  {
    Sheet(NewPageCursor(s.cur, title), None)
  }

  /** `section`: drop the pending title, reserve 7, step 6.5. */
  function AfterSection(h: real, s: Sheet): (r: Sheet)
    ensures r.pending == None
    ensures ColOk(s.cur) ==> ColOk(r.cur)
    ensures SectionNeed <= Bottom(h) - ColTop ==> r.cur.y + (SectionNeed - SectionStep) <= Bottom(h)
  {
    var c := CheckSpace(h, s.cur, SectionNeed);
    Sheet(c.(y := c.y + SectionStep), None)
  }

  /** `subsection`: record the title only. */
  function AfterSubsection(s: Sheet, title: string): (r: Sheet)
    ensures r.cur == s.cur && r.pending == Some(title)
  {
    s.(pending := Some(title))
  }

  /** `code_block` of `n` lines. */
  function AfterCodeBlock(w: real, h: real, s: Sheet, n: nat): (r: Sheet)
    ensures r.pending == None
    ensures ColOk(s.cur) ==> ColOk(r.cur)
  {
    var c := Reserve(w, h, s, CodeHeight(n)).cur;
    Sheet(c.(y := c.y + CodeHeight(n) + 0.5), None)
  }

  /** `body_text` of `n` lines. */
  function AfterBodyText(w: real, h: real, s: Sheet, n: nat): (r: Sheet)
    ensures r.pending == None
    ensures ColOk(s.cur) ==> ColOk(r.cur)
  {
    var c := Reserve(w, h, s, BodyHeight(n)).cur;
    Sheet(c.(y := c.y + BodyHeight(n)), None)
  }

  /** `compact_list` estimated at `est` lines; the wrapped text ends at
      `wrapBottom`, a y only the drawing library knows. */
  function AfterCompactList(h: real, s: Sheet, est: int, wrapBottom: real): (r: Sheet)
    ensures ColOk(s.cur) ==> ColOk(r.cur)
  {
    var c := CheckSpace(h, s.cur, ListHeight(est));
    Sheet(c.(y := wrapBottom + 0.8), s.pending)
  }

  /** `spacer(dy)`: moves down by exactly `dy` and changes neither page,
      column, title nor pending title. */
  function AfterSpacer(s: Sheet, dy: real): (r: Sheet)
    ensures r.cur.pages == s.cur.pages && r.cur.col == s.cur.col && r.cur.title == s.cur.title
    ensures r.cur.y - s.cur.y == dy && r.pending == s.pending
  {
    s.(cur := s.cur.(y := s.cur.y + dy))
  }

  // ------------------------------------------------------------- properties

  /** The life of a pending sub-header: `subsection` records its title over
      any earlier one and moves nothing; `section` and `new_page` discard
      it; `compact_list` and `spacer` keep it; a code block or body
      paragraph consumes it. */
  lemma PendingLifecycle(w: real, h: real, s: Sheet, title: string, n: nat, est: int, wrapBottom: real, dy: real)
    ensures AfterSubsection(s, title).pending == Some(title) && AfterSubsection(s, title).cur == s.cur
    ensures AfterSection(h, s).pending == None && AfterNewPage(s, title).pending == None
    ensures AfterCompactList(h, s, est, wrapBottom).pending == s.pending
    ensures AfterSpacer(s, dy).pending == s.pending
    ensures AfterCodeBlock(w, h, s, n).pending == None && AfterBodyText(w, h, s, n).pending == None
  {
  }

  /** A sub-header followed by a compact list and then another sub-header is
      never drawn: the list leaves the first title pending, the second
      overwrites it, and the block that flushes draws only the second. */
  lemma ListBetweenSubsectionsDropsFirst(w: real, h: real, s: Sheet, first: string, second: string,
                                         est: int, wrapBottom: real, needed: real)
    ensures var s1 := AfterCompactList(h, AfterSubsection(s, first), est, wrapBottom);
      s1.pending == Some(first) &&
      AfterSubsection(s1, second).pending == Some(second) &&
      Reserve(w, h, AfterSubsection(s1, second), needed).header.value.text == "  " + second
  {
  }

  /** `new_page` lands at column 0, top of column, no pending header and the
      given title whatever the state before; only the page count remembers it. */
  lemma NewPageForgets(s1: Sheet, s2: Sheet, title: string)
    ensures AfterNewPage(s1, title).cur == Cursor(s1.cur.pages + 1, 0, ColTop, title)
    ensures AfterNewPage(s1, title).pending == None
    ensures AfterNewPage(s1, title).cur.(pages := 0) == AfterNewPage(s2, title).cur.(pages := 0)
  {
  }

  /** A section right after `new_page` lands at the top of column 0 of the
      new page, whatever the state before, when a column can hold it. */
  lemma NewPageThenSection(h: real, s: Sheet, title: string)
    requires SectionNeed <= Bottom(h) - ColTop
    ensures AfterSection(h, AfterNewPage(s, title)) == Sheet(Cursor(s.cur.pages + 1, 0, ColTop + SectionStep, title), None)
  {
  }

  /** A section band followed by a one-line body paragraph. */
  function SectionWithLine(w: real, h: real, s: Sheet): Sheet {
    AfterBodyText(w, h, AfterSection(h, s), 1)
  }

  /** `k` such pairs in a row. */
  function SectionsWithLine(w: real, h: real, s: Sheet, k: nat): Sheet
    decreases k
  {
    if k == 0 then s else SectionsWithLine(w, h, SectionWithLine(w, h, s), k - 1)
  }

  /** On a page 46 high, each column holds two section-and-line pairs: six
      fill the first page, and a seventh section starts the second. */
  lemma SevenSectionsSpillOnce(w: real, h: real, title: string)
    requires h == 46.0
    ensures var s6 := SectionsWithLine(w, h, AfterNewPage(Sheet(Cursor(0, 0, ColTop, ""), None), title), 6);
      s6.cur.pages == 1 && s6.cur.col == ColCount - 1 &&
      AfterSection(h, s6).cur == Cursor(2, 0, ColTop + SectionStep, ContinuationTitle(title))
  {
    var s0 := AfterNewPage(Sheet(Cursor(0, 0, ColTop, ""), None), title);
    var s1 := SectionWithLine(w, h, s0);
    assert s1 == Sheet(Cursor(1, 0, 28.7, title), None);
    var s2 := SectionWithLine(w, h, s1);
    assert s2 == Sheet(Cursor(1, 0, 39.4, title), None);
    var s3 := SectionWithLine(w, h, s2);
    assert s3 == Sheet(Cursor(1, 1, 28.7, title), None);
    var s4 := SectionWithLine(w, h, s3);
    assert s4 == Sheet(Cursor(1, 1, 39.4, title), None);
    var s5 := SectionWithLine(w, h, s4);
    assert s5 == Sheet(Cursor(1, 2, 28.7, title), None);
    var s6 := SectionWithLine(w, h, s5);
    assert s6 == Sheet(Cursor(1, 2, 39.4, title), None);
    assert SectionsWithLine(w, h, s5, 1) == s6;
    assert SectionsWithLine(w, h, s4, 2) == s6;
    assert SectionsWithLine(w, h, s3, 3) == s6;
    assert SectionsWithLine(w, h, s2, 4) == s6;
    assert SectionsWithLine(w, h, s1, 5) == s6;
  }

  /** Where a code block lands: when its reservation (the block, plus the
      band of a pending sub-header) fits, it stays in the column and ends
      the reservation plus 0.5 below where the cursor was; otherwise it
      starts at the top of the next column slot. */
  lemma CodeBlockPlacement(w: real, h: real, s: Sheet, n: nat)
    requires ColOk(s.cur)
    ensures var r := AfterCodeBlock(w, h, s, n); var need := Reserved(s, CodeHeight(n));
      s.cur.y + need <= Bottom(h) ==>
        r.cur.pages == s.cur.pages && r.cur.col == s.cur.col && r.cur.y == s.cur.y + need + 0.5
    ensures var r := AfterCodeBlock(w, h, s, n); var need := Reserved(s, CodeHeight(n));
      s.cur.y + need > Bottom(h) ==> Slot(r.cur) == Slot(s.cur) + 1 && r.cur.y == ColTop + need + 0.5
  {
    CheckSpaceAdvancesOnce(h, s.cur, Reserved(s, CodeHeight(n)));
  }

  /** Where a section band lands: in place when 7 fits above the bottom
      margin, otherwise at the top of the next column or page; either way
      the cursor ends 6.5 below where the band starts. */
  lemma SectionPlacement(h: real, s: Sheet)
    requires ColOk(s.cur)
    ensures s.cur.y + SectionNeed <= Bottom(h) ==>
      AfterSection(h, s).cur == s.cur.(y := s.cur.y + SectionStep)
    ensures s.cur.y + SectionNeed > Bottom(h) ==>
      Slot(AfterSection(h, s).cur) == Slot(s.cur) + 1 && AfterSection(h, s).cur.y == ColTop + SectionStep
  {
  }

  /** Where a body paragraph lands, as for a code block but without the
      trailing 0.5. */
  lemma BodyTextPlacement(w: real, h: real, s: Sheet, n: nat)
    requires ColOk(s.cur)
    ensures var r := AfterBodyText(w, h, s, n); var need := Reserved(s, BodyHeight(n));
      s.cur.y + need <= Bottom(h) ==>
        r.cur.pages == s.cur.pages && r.cur.col == s.cur.col && r.cur.y == s.cur.y + need
    ensures var r := AfterBodyText(w, h, s, n); var need := Reserved(s, BodyHeight(n));
      s.cur.y + need > Bottom(h) ==> Slot(r.cur) == Slot(s.cur) + 1 && r.cur.y == ColTop + need
  {
    CheckSpaceAdvancesOnce(h, s.cur, Reserved(s, BodyHeight(n)));
  }

  // -------------------------------------------------------------- truncation

  /** `t` is the longest prefix of `line` measuring at most `availW`, or
      empty when no non-empty prefix does. */
  ghost predicate LongestFit(line: string, t: string, availW: real, measure: string -> real) {
    t <= line && (t == [] || measure(t) <= availW) &&
    forall k :: |t| < k <= |line| ==> measure(line[..k]) > availW
  }

  /** Only one prefix is the longest that fits. */
  lemma LongestFitUnique(line: string, t1: string, t2: string, availW: real, measure: string -> real)
    requires LongestFit(line, t1, availW, measure) && LongestFit(line, t2, availW, measure)
    ensures t1 == t2
  {
    assert t1 == line[..|t1|] && t2 == line[..|t2|];
  }

  /** The loop of `body_text` that drops trailing characters until the line
      measures at most the available width or is empty. */
  method LongestFittingPrefix(line: string, availW: real, measure: string -> real) returns (t: string)
    ensures LongestFit(line, t, availW, measure)
  {
    t := line;
    while |t| > 0 && measure(t) > availW
      invariant t <= line
      invariant forall k :: |t| < k <= |line| ==> measure(line[..k]) > availW
    {
      assert line[..|t|] == t;
      t := t[..|t| - 1];
    }
  }

  // ------------------------------------------------------------------ engine

  class CheatSheet {
    /** Page width and height. */
    const w: real
    const h: real
    const colW: real
    var colIdx: int
    var colY: real
    /** Pages added so far. */
    var pages: nat
    var currentPageTitle: string
    var pendingSubsect: Option<string>

    ghost predicate Valid()
      reads this
    {
      0 <= colIdx < ColCount && colW == ColW(w)
    }

    function Cur(): Cursor
      reads this
    {
      Cursor(pages, colIdx, colY, currentPageTitle)
    }

    function State(): Sheet
      reads this
    {
      Sheet(Cur(), pendingSubsect)
    }

    /** `__init__`: fixed geometry, column 0 at the top, no page yet. */
    constructor (pageW: real, pageH: real)
      ensures Valid() && w == pageW && h == pageH
      ensures State() == Sheet(Cursor(0, 0, ColTop, ""), None)
    {
      w, h := pageW, pageH;
      colW := (UsableW(pageW) - (ColCount - 1) as real * ColGap) / ColCount as real;
      colIdx := 0;
      colY := ColTop;
      pages := 0;
      currentPageTitle := "";
      pendingSubsect := None;
    }

    /** The drawing library's `add_page`, as far as the layout sees it. */
    method AddPage()
      modifies this
      ensures Cur() == old(Cur()).(pages := old(pages) + 1)
      ensures pendingSubsect == old(pendingSubsect)
    {
      pages := pages + 1;
    }

    /** `page_header`: the page takes the title and the cursor returns to
        the top of the column. */
    method PageHeader(title: string)
      modifies this
      ensures Cur() == old(Cur()).(title := title, y := ColTop)
      ensures pendingSubsect == old(pendingSubsect)
    {
      currentPageTitle := title;
      colY := ColTop;
    }

    /** `_col_left`: the x of the current column lies between the margins
        with a full column width to its right. */
    method ColLeft() returns (x: real)
      requires Valid()
      ensures x == Flow.ColLeft(w, colIdx)
      ensures colW >= 0.0 ==> Margin <= x && x + colW <= w - Margin
    {
      x := Margin + colIdx as real * (colW + ColGap);
      ColumnsTile(w, colIdx);
      ColumnsTile(w, colIdx + 1);
    }

    /** `_check_space`. */
    method CheckSpace(needed: real)
      requires Valid()
      modifies this
      ensures Valid()
      ensures Cur() == Flow.CheckSpace(h, old(Cur()), needed)
      ensures pendingSubsect == old(pendingSubsect)
    {
      if colY + needed > h - Margin {
        colIdx := colIdx + 1;
        colY := ColTop;
        if colIdx >= ColCount {
          AddPage();
          var base := RemoveAll(currentPageTitle, Cont);
          PageHeader(base + Cont);
          colIdx := 0;
          colY := ColTop;
        }
      }
    }

    /** `_flush_pending_subsect`: returns the band it drew, if any. */
    method FlushPendingSubsect() returns (band: Option<Cell>)
      requires Valid()
      modifies this
      ensures Valid()
      ensures State() == AfterFlush(old(State()))
      ensures band == if old(pendingSubsect).Some?
                      then Some(BandAt(w, old(Cur()), old(pendingSubsect).value)) else None
    {
      band := None;
      if pendingSubsect.Some? {
        var title := pendingSubsect.value;
        pendingSubsect := None;
        var x := ColLeft();
        band := Some(Cell(pages, colIdx, x, colY, "  " + title));
        colY := colY + SubsectStep;
      }
    }

    /** `new_page`. */
    method NewPage(title: string)
      requires Valid()
      modifies this
      ensures Valid()
      ensures State() == AfterNewPage(old(State()), title)
    {
      pendingSubsect := None;
      AddPage();
      PageHeader(title);
      colIdx := 0;
      colY := ColTop;
    }

    /** `section`: returns the band it drew. */
    method Section(title: string) returns (band: Cell)
      requires Valid()
      modifies this
      ensures Valid()
      ensures State() == AfterSection(h, old(State()))
      ensures band == BandAt(w, Flow.CheckSpace(h, old(Cur()), SectionNeed), title)
    {
      pendingSubsect := None;
      CheckSpace(SectionNeed);
      var x := ColLeft();
      band := Cell(pages, colIdx, x, colY, "  " + title);
      colY := colY + SectionStep;
    }

    /** `subsection`. */
    method Subsection(title: string)
      requires Valid()
      modifies this
      ensures Valid()
      ensures State() == AfterSubsection(old(State()), title)
    {
      pendingSubsect := Some(title);
    }

    /** The reservation `code_block` and `body_text` open with: check
        space for the block, or for the pending sub-header and the block
        together and then flush the sub-header. */
    method ReserveBlock(needed: real) returns (header: Option<Cell>)
      requires Valid()
      modifies this
      ensures Valid()
      ensures var r := Reserve(w, h, old(State()), needed);
        State() == Sheet(r.cur, None) && header == r.header
    {
      if pendingSubsect.Some? {
        CheckSpace(SubsectStep + needed);
        header := FlushPendingSubsect();
      } else {
        CheckSpace(needed);
        header := None;
      }
    }

    /** `code_block`: returns the pending sub-header band it drew and one
        cell per line, each line cut to the character budget of the column.
        `measure` is the width of a string in the code font. */
    method CodeBlock(text: string, measure: string -> real) returns (header: Option<Cell>, rows: seq<Cell>)
      requires Valid()
      requires measure("M") != 0.0
      modifies this
      ensures Valid()
      ensures State() == AfterCodeBlock(w, h, old(State()), |Lines(text)|)
      ensures var r := Reserve(w, h, old(State()), CodeHeight(|Lines(text)|));
        header == r.header &&
        |rows| == |Lines(text)| &&
        forall i :: 0 <= i < |rows| ==>
          rows[i] == Cell(r.cur.pages, r.cur.col, Flow.ColLeft(w, r.cur.col) + 1.0, r.cur.y + 1.0 + 3.4 * i as real,
                          PyPrefix(Lines(text)[i], MaxChars(w, measure("M"))))
    {
      var lines := Lines(text);
      header, rows := PlaceCode(lines, measure);
    }

    /** `code_block` once the text is split into lines. */
    method PlaceCode(lines: seq<string>, measure: string -> real) returns (header: Option<Cell>, rows: seq<Cell>)
      requires Valid()
      requires measure("M") != 0.0
      modifies this
      ensures Valid()
      ensures State() == AfterCodeBlock(w, h, old(State()), |lines|)
      ensures var r := Reserve(w, h, old(State()), CodeHeight(|lines|));
        header == r.header &&
        |rows| == |lines| &&
        forall i :: 0 <= i < |rows| ==>
          rows[i] == Cell(r.cur.pages, r.cur.col, Flow.ColLeft(w, r.cur.col) + 1.0, r.cur.y + 1.0 + 3.4 * i as real,
                          PyPrefix(lines[i], MaxChars(w, measure("M"))))
    {
      var needed := CodeHeight(|lines|);
      header := ReserveBlock(needed);
      var availW := colW - 2.0;
      var maxChars := TruncToward0(availW / measure("M"));
      var x := ColLeft();
      var yStart := colY;
      var cy := yStart + 1.0;
      rows := [];
      for i := 0 to |lines|
        invariant cy == yStart + 1.0 + 3.4 * i as real
        invariant |rows| == i
        invariant forall k :: 0 <= k < i ==>
          rows[k] == Cell(pages, colIdx, x + 1.0, yStart + 1.0 + 3.4 * k as real, PyPrefix(lines[k], maxChars))
      {
        rows := rows + [Cell(pages, colIdx, x + 1.0, cy, PyPrefix(lines[i], maxChars))];
        cy := cy + 3.4;
      }
      colY := yStart + needed + 0.5;
    }

    /** `body_text`: returns the pending sub-header band it drew and one cell
        per line, each line cut to the longest prefix that measures at most
        `col_w - 3`. `measure` is the width of a string in the body font. */
    method BodyText(text: string, measure: string -> real) returns (header: Option<Cell>, rows: seq<Cell>)
      requires Valid()
      modifies this
      ensures Valid()
      ensures State() == AfterBodyText(w, h, old(State()), |Lines(text)|)
      ensures var r := Reserve(w, h, old(State()), BodyHeight(|Lines(text)|));
        header == r.header &&
        |rows| == |Lines(text)| &&
        forall i :: 0 <= i < |rows| ==>
          rows[i].page == r.cur.pages && rows[i].col == r.cur.col &&
          rows[i].x == Flow.ColLeft(w, r.cur.col) + 1.5 && rows[i].y == r.cur.y + 3.2 * i as real &&
          LongestFit(Lines(text)[i], rows[i].text, colW - 3.0, measure)
    {
      var lines := Lines(text);
      header, rows := PlaceBody(lines, measure);
    }

    /** `body_text` once the text is split into lines. */
    method PlaceBody(lines: seq<string>, measure: string -> real) returns (header: Option<Cell>, rows: seq<Cell>)
      requires Valid()
      modifies this
      ensures Valid()
      ensures State() == AfterBodyText(w, h, old(State()), |lines|)
      ensures var r := Reserve(w, h, old(State()), BodyHeight(|lines|));
        header == r.header &&
        |rows| == |lines| &&
        forall i :: 0 <= i < |rows| ==>
          rows[i].page == r.cur.pages && rows[i].col == r.cur.col &&
          rows[i].x == Flow.ColLeft(w, r.cur.col) + 1.5 && rows[i].y == r.cur.y + 3.2 * i as real &&
          LongestFit(lines[i], rows[i].text, colW - 3.0, measure)
    {
      var needed := BodyHeight(|lines|);
      header := ReserveBlock(needed);
      var x := ColLeft();
      var availW := colW - 3.0;
      ghost var top := Cur();
      rows := [];
      for i := 0 to |lines|
        invariant Cur() == top.(y := top.y + 3.2 * i as real) && pendingSubsect == None
        invariant |rows| == i
        invariant forall k :: 0 <= k < i ==>
          rows[k].page == top.pages && rows[k].col == top.col &&
          rows[k].x == x + 1.5 && rows[k].y == top.y + 3.2 * k as real &&
          LongestFit(lines[k], rows[k].text, availW, measure)
      {
        var truncated := LongestFittingPrefix(lines[i], availW, measure);
        rows := rows + [Cell(pages, colIdx, x + 1.5, colY, truncated)];
        colY := colY + 3.2;
      }
      colY := colY + 1.0;
    }

    /** `compact_list`: the bold label and the comma-joined items, with the
        height estimated from the measured width of the whole text.
        `measureLabel` and `measureText` are string widths in the label font
        and the list font; `wrapBottom` is the y at which the drawing
        library's wrapped cell ends. Returns the label cell and the x of the
        items cell, which starts right after the label. */
    method CompactList(labelText: string, items: seq<string>, measureLabel: string -> real,
                       measureText: string -> real, wrapBottom: real) returns (labelCell: Cell, itemsX: real)
      requires Valid()
      requires colW - 3.0 != 0.0
      modifies this
      ensures Valid()
      ensures var est := EstLines(measureText(labelText + " " + Join(items, ", ")), colW - 3.0);
        var c := Flow.CheckSpace(h, old(Cur()), ListHeight(est));
        State() == AfterCompactList(h, old(State()), est, wrapBottom) &&
        labelCell == Cell(c.pages, c.col, Flow.ColLeft(w, c.col) + 1.5, c.y, labelText + " ") &&
        itemsX == labelCell.x + measureLabel(labelText + " ") + 1.0
    {
      var labelW := measureLabel(labelText + " ") + 1.0;
      var itemStr := Join(items, ", ");
      var full := labelText + " " + itemStr;
      var availW := colW - 3.0;
      var estLines := EstLines(measureText(full), availW);
      var needed := ListHeight(estLines);
      CheckSpace(needed);
      var x := ColLeft();
      labelCell := Cell(pages, colIdx, x + 1.5, colY, labelText + " ");
      itemsX := x + 1.5 + labelW;
      colY := wrapBottom + 0.8;
    }

    /** `spacer`. */
    method Spacer(dy: real := 2.0)
      requires Valid()
      modifies this
      ensures Valid()
      ensures State() == AfterSpacer(old(State()), dy)
    {
      colY := colY + dy;
    }
  }
}
