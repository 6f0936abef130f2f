/** What both copies of the cheat-sheet engine share: the fixed page
    geometry, the cursor, the space check that moves it to the next column
    or page, the continuation title, the block-height formulas and the
    character budgets derived from measured widths. Lengths are millimetres,
    held as exact reals. */
module Flow {
  import opened Text

  const ColCount: int := 3
  const Margin: real := 6.0
  const ColGap: real := 4.0
  /** First usable y of a column, below the page title banner. */
  const ColTop: real := 18.0
  /** The suffix a page title gets when content overflows onto a new page. */
  const Cont: string := " (cont.)"

  // ---------------------------------------------------------------- geometry

  function UsableW(w: real): real { w - 2.0 * Margin }

  /** `col_w`: the usable width less the gaps, shared evenly by the columns. */
  function ColW(w: real): (cw: real)
    ensures ColCount as real * cw + (ColCount - 1) as real * ColGap == UsableW(w)
  {
    (UsableW(w) - (ColCount - 1) as real * ColGap) / ColCount as real
  }

  /** `_col_left`: the x of column `i`. Every column of a page at least
      the margins wide lies between the margins with its full width. */
  function ColLeft(w: real, i: int): (x: real)
    ensures 0 <= i < ColCount && ColW(w) >= 0.0 ==> Margin <= x && x + ColW(w) <= w - Margin
  {
    var x := Margin + i as real * (ColW(w) + ColGap);
    assert 0 <= i < ColCount && ColW(w) >= 0.0 ==> Margin <= x && x + ColW(w) <= w - Margin by {
      if 0 <= i < ColCount && ColW(w) >= 0.0 {
        assert 3.0 * ColW(w) + 2.0 * ColGap == w - 2.0 * Margin;
        if i == 0 {
          assert x == Margin;
        } else if i == 1 {
          assert x == Margin + ColW(w) + ColGap;
        } else {
          assert x == Margin + 2.0 * (ColW(w) + ColGap);
        }
      }
    }
    x
  }

  /** The lowest y a block may reach: the page height less the margin. */
  function Bottom(h: real): real { h - Margin }

  /** The columns tile the page: the first starts at the left margin, the
      last ends at the right margin, and consecutive columns are exactly one
      column width and one gap apart, so they never overlap. */
  lemma ColumnsTile(w: real, i: int)
    ensures ColLeft(w, 0) == Margin
    ensures ColLeft(w, ColCount - 1) + ColW(w) == w - Margin
    ensures ColLeft(w, i + 1) - ColLeft(w, i) == ColW(w) + ColGap
    ensures ColLeft(w, i) + ColW(w) < ColLeft(w, i + 1)
  {
  }

  // ------------------------------------------------------------------ cursor

  /** The engine's writing position: the number of pages added so far, the
      column index, the y within the column and the title of the current page. */
  datatype Cursor = Cursor(pages: nat, col: int, y: real, title: string)

  /** `0 <= col_idx < col_count`. */
  predicate ColOk(c: Cursor) { 0 <= c.col < ColCount }

  /** The column slot of a cursor counted across pages. */
  function Slot(c: Cursor): int { c.pages * ColCount + c.col }

  /** The title of an overflow page: the current title with every " (cont.)"
      removed, then one " (cont.)" appended. */
  function ContinuationTitle(title: string): (r: string)
    ensures |r| >= |Cont| && r[|r| - |Cont|..] == Cont
  {
    RemoveAll(title, Cont) + Cont
  }

  /** A title without " (cont.)" gets the suffix once, and overflowing again
      from the continued page keeps the same title: suffixes do not stack. */
  lemma ContinuationDoesNotStack(title: string)
    requires !Contains(title, Cont)
    ensures ContinuationTitle(title) == title + Cont
    ensures ContinuationTitle(title + Cont) == title + Cont
  {
    RemoveAbsent(title, Cont);
    RemoveSuffixAgain(title);
  }

  /** Removing " (cont.)" from `t + " (cont.)"` gives back `t` when `t` has
      no occurrence: no occurrence straddles the join, because the suffix's
      last character ')' appears in it only at its end. */
  lemma {:induction false} RemoveSuffixAgain(t: string)
    requires !Contains(t, Cont)
    ensures RemoveAll(t + Cont, Cont) == t
  {
    var u := t + Cont;
    if t == [] {
      assert u[|Cont|..] == [];
    } else {
      assert u[..|Cont|] != Cont by {
        if |t| >= |Cont| {
          assert u[..|Cont|] == t[0..0 + |Cont|];
          assert !OccursAt(t, Cont, 0);
        } else {
          assert u[|Cont| - 1] == Cont[|Cont| - 1 - |t|];
        }
      }
      ContainsTail(t, Cont);
      assert u[1..] == t[1..] + Cont;
      RemoveSuffixAgain(t[1..]);
    }
  }

  /** The rule only keeps suffixes from stacking on titles that do not
      already contain " (cont.)": in the title " (co (cont.)nt.)", removing
      the inner occurrence joins its neighbours into a new one, which
      survives and gets a second suffix. */
  lemma ContrivedTitleStacks(title: string, rest: string)
    requires [' '] + (['('] + (['c'] + (['o'] + rest))) == Cont
    requires title == [' '] + (['('] + (['c'] + (['o'] + (Cont + rest))))
    ensures ContinuationTitle(title) == Cont + Cont
  {
    var s3 := Cont + rest;
    var s2 := ['o'] + s3;
    var s1 := ['c'] + s2;
    var s0 := ['('] + s1;
    assert |rest| < |Cont|;
    RemoveAbsent(rest, Cont);
    RemoveHit(rest, Cont);
    assert s2[..|Cont|][0] != Cont[0];
    RemoveKeep('o', s3, Cont);
    assert s1[..|Cont|][0] != Cont[0];
    RemoveKeep('c', s2, Cont);
    assert s0[..|Cont|][0] != Cont[0];
    RemoveKeep('(', s1, Cont);
    assert title[..|Cont|][4] != Cont[4];
    RemoveKeep(' ', s0, Cont);
  }

  /** An occurrence at the front is removed and the scan goes on after it. */
  lemma RemoveHit(s: string, pat: string)
    requires |pat| > 0
    ensures RemoveAll(pat + s, pat) == RemoveAll(s, pat)
  {
    assert (pat + s)[..|pat|] == pat;
    assert (pat + s)[|pat|..] == s;
  }

  /** A character that does not start an occurrence is kept. */
  lemma RemoveKeep(c: char, s: string, pat: string)
    requires |pat| > 0
    requires |s| + 1 >= |pat| ==> ([c] + s)[..|pat|] != pat
    ensures RemoveAll([c] + s, pat) == [c] + RemoveAll(s, pat)
  {
    assert ([c] + s)[1..] == s;
  }

  /** `_check_space(needed)`: when the block does not fit above the bottom
      margin, move to the top of the next column, and past the last column
      to column 0 of one new page whose title is the continuation title. */
  function CheckSpace(h: real, c: Cursor, needed: real): (r: Cursor)
    ensures ColOk(c) ==> ColOk(r)
    ensures r == c <==> c.y + needed <= Bottom(h)
    ensures r.pages == c.pages || (r.pages == c.pages + 1 && r.col == 0)
    ensures needed <= Bottom(h) - ColTop ==> r.y + needed <= Bottom(h)
  {
    if c.y + needed > Bottom(h) then
      if c.col + 1 >= ColCount then Cursor(c.pages + 1, 0, ColTop, ContinuationTitle(c.title))
      else c.(col := c.col + 1, y := ColTop)
    else c
  }

  /** A space check either changes nothing or advances by exactly one
      column slot to the top of a column; a new page is entered only from
      the last column, and only it changes the title. */
  lemma CheckSpaceAdvancesOnce(h: real, c: Cursor, needed: real)
    requires ColOk(c)
    ensures var r := CheckSpace(h, c, needed);
      r != c ==> Slot(r) == Slot(c) + 1 && r.y == ColTop
    ensures var r := CheckSpace(h, c, needed);
      r.pages == c.pages + 1 ==> c.col == ColCount - 1 && r.title == ContinuationTitle(c.title)
    ensures var r := CheckSpace(h, c, needed);
      r.pages == c.pages ==> r.title == c.title
  {
  }

  /** A new page titled `title`, whatever the cursor was before. */
  function NewPageCursor(c: Cursor, title: string): (r: Cursor)
    ensures ColOk(r) && r.col == 0 && r.y == ColTop && r.title == title
    ensures r.pages == c.pages + 1
  {
    Cursor(c.pages + 1, 0, ColTop, title)
  }

  // ------------------------------------------------------------------ blocks

  /** The height reserved for a code block of `n` lines. */
  function CodeHeight(n: nat): (ht: real)
    ensures ht >= 2.0 && ht > BodyHeight(n)
  {
    n as real * 3.4 + 2.0
  }

  /** The height reserved for a body paragraph of `n` lines. */
  function BodyHeight(n: nat): (ht: real)
    ensures ht >= 1.0
  {
    n as real * 3.2 + 1.0
  }

  /** The height reserved for a compact list estimated at `lines` lines. */
  function ListHeight(lines: int): real {
    lines as real * 3.2 + 1.0
  }

  /** The height a compact list reserves covers its measured text: more
      than one 3.2 line per available width of text, plus the padding. */
  lemma ListHeightCoversText(fullW: real, availW: real)
    requires availW > 0.0 && fullW >= 0.0
    ensures ListHeight(EstLines(fullW, availW)) > 3.2 * (fullW / availW) + 1.0
  {
    var q := fullW / availW;
    assert 0.0 <= q;
    assert q < TruncToward0(q) as real + 1.0;
  }

  /** Each further line adds 3.4 to a code block and 3.2 to a body
      paragraph or a compact list; the empty block keeps 2 and 1 for its
      padding. */
  lemma HeightPerLine(n: nat)
    ensures CodeHeight(0) == 2.0 && CodeHeight(n + 1) - CodeHeight(n) == 3.4
    ensures BodyHeight(0) == 1.0 && BodyHeight(n + 1) - BodyHeight(n) == 3.2
    ensures ListHeight(n + 1) - ListHeight(n) == 3.2
  {
  }

  /** Space a section band reserves, and how far it moves the cursor. */
  const SectionNeed: real := 7.0
  const SectionStep: real := 6.5
  /** How far a sub-header band moves the cursor. */
  const SubsectStep: real := 5.5

  /** A text cell placed on the page: page number, column, position, text. */
  datatype Cell = Cell(page: nat, col: int, x: real, y: real, text: string)

  /** A band drawn at the cursor's current position with the engine's
      two-space indent. */
  function BandAt(w: real, c: Cursor, title: string): Cell {
    Cell(c.pages, c.col, ColLeft(w, c.col), c.y, "  " + title)
  }

  // --------------------------------------------------- measured-width budgets

  /** Python's `int(x)`: truncation toward zero. */
  function TruncToward0(x: real): (n: int)
    ensures 0.0 <= x ==> n as real <= x < n as real + 1.0
    ensures x < 0.0 ==> n as real - 1.0 < x <= n as real
  {
    if 0.0 <= x then x.Floor else -((-x).Floor)
  }

  lemma TruncMonotone(x: real, y: real)
    requires x <= y
    ensures TruncToward0(x) <= TruncToward0(y)
  {
  }

  /** `max_chars = int((col_w - 2) / get_string_width("M"))`. When "M" has
      positive width and the column has room, it is the largest number of
      "M"-wide characters that fit in `col_w - 2`, so a code line cut to it
      is no wider than that. */
  function MaxChars(w: real, mWidth: real): (k: int)
    requires mWidth != 0.0
    ensures mWidth > 0.0 && ColW(w) >= 2.0 ==>
      0 <= k && k as real * mWidth <= ColW(w) - 2.0 < (k as real + 1.0) * mWidth
  {
    var k := TruncToward0((ColW(w) - 2.0) / mWidth);
    if mWidth > 0.0 && ColW(w) >= 2.0 then
      DivBracket(ColW(w) - 2.0, mWidth, k as real);
      k
    else k
  }

  /** `k <= a / m < k + 1` scaled by a positive `m`. */
  lemma DivBracket(a: real, m: real, k: real)
    requires m > 0.0 && k <= a / m < k + 1.0
    ensures k * m <= a < (k + 1.0) * m
  {
    var q := a / m;
    MulMonotone(k, q, m);
    MulStrict(q, k + 1.0, m);
    calc {
      a;
    ==
      q * m;
    <
      (k + 1.0) * m;
    }
  }

  lemma MulMonotone(a: real, b: real, m: real)
    requires a <= b && 0.0 <= m
    ensures a * m <= b * m
  {
  }

  lemma MulStrict(a: real, b: real, m: real)
    requires a < b && 0.0 < m
    ensures a * m < b * m
  {
  }

  /** `est_lines = max(1, int(width(full) / available_w) + 1)`. */
  function EstLines(fullW: real, availW: real): (n: int)
    requires availW != 0.0
    ensures n >= 1
  {
    var k := TruncToward0(fullW / availW) + 1;
    if k > 1 then k else 1
  }

  /** For a positive available width, `est_lines` lines of that width are
      exactly what holds text of width `fullW` with some room to spare:
      one line fewer is not wider than the text. */
  lemma EstLinesBracket(fullW: real, availW: real)
    requires availW > 0.0 && fullW >= 0.0
    ensures var n := EstLines(fullW, availW);
      (n as real - 1.0) * availW <= fullW < n as real * availW
  {
    DivBracket(fullW, availW, TruncToward0(fullW / availW) as real);
  }

  /** Text at least `k` available widths wide is estimated at more than `k`
      lines, so a long list reserves height in proportion to its width. */
  lemma EstLinesAtLeast(fullW: real, availW: real, k: nat)
    requires availW > 0.0 && fullW >= k as real * availW
    ensures EstLines(fullW, availW) >= k + 1
  {
    var n := EstLines(fullW, availW);
    EstLinesBracket(fullW, availW);
    if n <= k {
      MulMonotone(n as real, k as real, availW);
    }
  }

  /** Wider text never gets fewer estimated lines. */
  lemma EstLinesMonotone(w1: real, w2: real, availW: real)
    requires availW > 0.0 && w1 <= w2
    ensures EstLines(w1, availW) <= EstLines(w2, availW)
  {
    MulMonotone(w1, w2, 1.0 / availW);
    assert w1 / availW == w1 * (1.0 / availW);
    assert w2 / availW == w2 * (1.0 / availW);
    TruncMonotone(w1 / availW, w2 / availW);
  }
}
