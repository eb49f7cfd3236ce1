/**
  Card and page drawing (bingo_maker/pdf/renderer.py: render_bingo_pdf,
  _draw_bingo_cards, _draw_bingo_card). The PDF canvas is modelled as a log
  of the drawing commands issued to it; each drawing method is proved to
  append exactly the commands given by a specification function, and the
  lemmas state what those command sequences contain.
 */
module Drawing {
  import opened Wrappers
  import opened Models
  import opened TextLayout

  // ---------------------------------------------------------------------------
  // The canvas as a command log
  // ---------------------------------------------------------------------------

  datatype Color = Black

  datatype Op =
    | SetStrokeColor(color: Color)
    | SetLineWidth(width: real)
    | SetFont(fontType: string, size: real)
    | DrawCentredString(x: real, y: real, text: string)
    | Rect(x: real, y: real, w: real, h: real, fill: bool)
    | Line(x1: real, y1: real, x2: real, y2: real)
    | ShowPage
    | Save

  predicate IsLine(op: Op) { op.Line? }
  predicate IsRect(op: Op) { op.Rect? }
  predicate IsText(op: Op) { op.DrawCentredString? }
  predicate IsPageBreak(op: Op) { op.ShowPage? }
  predicate IsSave(op: Op) { op.Save? }

  /** Number of commands of a log that are of the kind `p` picks out. */
  function CountOf(ops: seq<Op>, p: Op -> bool): nat
  {
    if ops == [] then 0 else (if p(ops[0]) then 1 else 0) + CountOf(ops[1..], p)
  }

  lemma {:induction false} CountAppend(a: seq<Op>, b: seq<Op>, p: Op -> bool)
    ensures CountOf(a + b, p) == CountOf(a, p) + CountOf(b, p)
  {
    if a == [] {
      assert a + b == b;
    } else {
      assert (a + b)[1..] == a[1..] + b;
      CountAppend(a[1..], b, p);
    }
  }

  /** A log made only of commands of one kind counts every command. */
  lemma {:induction false} CountAll(ops: seq<Op>, p: Op -> bool)
    requires forall i | 0 <= i < |ops| :: p(ops[i])
    ensures CountOf(ops, p) == |ops|
  {
    if ops != [] {
      CountAll(ops[1..], p);
    }
  }

  /** A log with no command of a kind counts none. */
  lemma {:induction false} CountNone(ops: seq<Op>, p: Op -> bool)
    requires forall i | 0 <= i < |ops| :: !p(ops[i])
    ensures CountOf(ops, p) == 0
  {
    if ops != [] {
      CountNone(ops[1..], p);
    }
  }

  /** A log that grew by `piece` after holding `prefix` beyond `base` now holds `prefix + piece` beyond it. */
  lemma AppendStep(base: seq<Op>, before: seq<Op>, after: seq<Op>, prefix: seq<Op>, piece: seq<Op>)
    requires before == base + prefix && after == before + piece
    ensures after == base + (prefix + piece)
  {
  }

  /** A log that started empty holds exactly what was appended to it. */
  lemma EmptyPrefix(piece: seq<Op>)
    ensures [] + piece == piece
  {
  }

  lemma CountAppend3(a: seq<Op>, b: seq<Op>, c: seq<Op>, p: Op -> bool)
    ensures CountOf(a + b + c, p) == CountOf(a, p) + CountOf(b, p) + CountOf(c, p)
  {
    CountAppend(a, b, p);
    CountAppend(a + b, c, p);
  }

  /** A canvas for one output file with a fixed page size; `ops` is what has been issued so far. */
  class Canvas {
    const path: string
    const pageW: real
    const pageH: real
    var ops: seq<Op>

    constructor (path: string, pageW: real, pageH: real)
      ensures this.path == path && this.pageW == pageW && this.pageH == pageH
      ensures ops == []
    {
      this.path := path;
      this.pageW := pageW;
      this.pageH := pageH;
      ops := [];
    }

    method SetStrokeColor(color: Color)
      modifies this
      ensures ops == old(ops) + [Op.SetStrokeColor(color)]
    {
      ops := ops + [Op.SetStrokeColor(color)];
    }

    method SetLineWidth(width: real)
      modifies this
      ensures ops == old(ops) + [Op.SetLineWidth(width)]
    {
      ops := ops + [Op.SetLineWidth(width)];
    }

    method SetFont(fontType: string, size: real)
      modifies this
      ensures ops == old(ops) + [Op.SetFont(fontType, size)]
    {
      ops := ops + [Op.SetFont(fontType, size)];
    }

    method DrawCentredString(x: real, y: real, text: string)
      modifies this
      ensures ops == old(ops) + [Op.DrawCentredString(x, y, text)]
    {
      ops := ops + [Op.DrawCentredString(x, y, text)];
    }

    method Rect(x: real, y: real, w: real, h: real, fill: bool)
      modifies this
      ensures ops == old(ops) + [Op.Rect(x, y, w, h, fill)]
    {
      ops := ops + [Op.Rect(x, y, w, h, fill)];
    }

    method Line(x1: real, y1: real, x2: real, y2: real)
      modifies this
      ensures ops == old(ops) + [Op.Line(x1, y1, x2, y2)]
    {
      ops := ops + [Op.Line(x1, y1, x2, y2)];
    }

    method ShowPage()
      modifies this
      ensures ops == old(ops) + [Op.ShowPage]
    {
      ops := ops + [Op.ShowPage];
    }

    method Save()
      modifies this
      ensures ops == old(ops) + [Op.Save]
    {
      ops := ops + [Op.Save];
    }
  }

  /** Ascent and descent of the item font in font units, as the font registry reports them. */
  datatype FontMetrics = FontMetrics(ascent: real, descent: real)

  /** The aligner `_draw_bingo_card` builds for the item font. */
  function ItemAligner(spec: LayoutSpec, font: FontMetrics): TextBlockAligner
  {
    NewTextBlockAligner(spec.itemFontSize, font.ascent, font.descent)
  }

  // ---------------------------------------------------------------------------
  // Row-major grid indices, shared by cards on a page and cells on a card
  // ---------------------------------------------------------------------------

  /** Flat index of position `(xi, yi)` of an `n` by `n` grid: `xi * n + yi`. */
  function GridIndex(n: int, xi: int, yi: int): int
  {
    xi * n + yi
  }

  lemma GridIndexBounds(n: int, xi: int, yi: int)
    requires 0 <= xi < n && 0 <= yi < n
    ensures 0 <= GridIndex(n, xi, yi) < n * n
  {
    assert xi * n <= (n - 1) * n;
  }

  /**
    The flat index is a bijection from the positions of an `n` by `n` grid
    onto `[0, n * n)`: every position lands in range and is recovered by
    division and remainder, and every index in range comes from the position
    given by division and remainder.
   */
  lemma GridIndexBijection(n: int)
    requires n > 0
    ensures forall xi, yi | 0 <= xi < n && 0 <= yi < n ::
              0 <= GridIndex(n, xi, yi) < n * n
              && GridIndex(n, xi, yi) / n == xi && GridIndex(n, xi, yi) % n == yi
    ensures forall k | 0 <= k < n * n ::
              0 <= k / n < n && 0 <= k % n < n && GridIndex(n, k / n, k % n) == k
  {
    forall xi, yi | 0 <= xi < n && 0 <= yi < n
      ensures 0 <= GridIndex(n, xi, yi) < n * n
      ensures GridIndex(n, xi, yi) / n == xi && GridIndex(n, xi, yi) % n == yi
    {
      GridIndexBounds(n, xi, yi);
      DivModUnique(n, xi, yi, GridIndex(n, xi, yi));
    }
    forall k | 0 <= k < n * n
      ensures 0 <= k / n < n && 0 <= k % n < n && GridIndex(n, k / n, k % n) == k
    {
      var q := k / n;
      assert k == q * n + k % n;
      assert q * n <= k;
      MulCancelLess(q, n, n);
    }
  }

  /** `a * n < b * n` for a positive `n` gives `a < b`. */
  lemma MulCancelLess(a: int, b: int, n: int)
    requires n > 0 && a * n < b * n
    ensures a < b
  {
    if a >= b {
      MulMonotone(a, b, n);
    }
  }

  lemma MulMonotone(a: int, b: int, n: int)
    requires a >= b && n >= 0
    ensures a * n >= b * n
  {
    assert a * n - b * n == (a - b) * n;
    MulNonNegative(a - b, n);
  }

  lemma MulNonNegative(a: int, b: int)
    requires a >= 0 && b >= 0
    ensures a * b >= 0
  {
  }

  lemma DivModUnique(n: int, q: int, r: int, k: int)
    requires n > 0 && 0 <= r < n && k == q * n + r
    ensures k / n == q && k % n == r
  {
    var q', r' := k / n, k % n;
    assert k == q' * n + r';
    assert q' * n < q * n + n;
    assert q * n < q' * n + n;
    assert q * n + n == (q + 1) * n;
    assert q' * n + n == (q' + 1) * n;
    MulCancelLess(q', q + 1, n);
    MulCancelLess(q, q' + 1, n);
  }

  // ---------------------------------------------------------------------------
  // What one card draws
  // ---------------------------------------------------------------------------

  /** Baseline of a card's title: one title font size below the top margin. */
  function TitleY(spec: LayoutSpec, originY: real): real
  {
    originY + spec.cardH - spec.marginH - spec.titleFontSize
  }

  /** Title, font switch and grid border of a card at `(originX, originY)`. */
  function FrameOps(data: BingoData, spec: LayoutSpec, originX: real, originY: real): seq<Op>
  {
    [ Op.SetFont(spec.fontType, spec.titleFontSize),
      Op.DrawCentredString(originX + spec.cardW / 2.0, TitleY(spec, originY), data.title),
      Op.SetFont(spec.fontType, spec.itemFontSize),
      Op.Rect(originX + spec.marginW, originY + spec.marginH, spec.gridW, spec.gridH, false) ]
  }

  /** The `i`-th vertical grid line, spanning the grid's height. */
  function VerticalLine(spec: LayoutSpec, originX: real, originY: real, i: int): Op
  {
    var x := originX + spec.marginW + i as real * spec.cellW;
    Op.Line(x, originY + spec.marginH, x, originY + spec.marginH + spec.gridH)
  }

  /** The `i`-th horizontal grid line, spanning the grid's width. */
  function HorizontalLine(spec: LayoutSpec, originX: real, originY: real, i: int): Op
  {
    var y := originY + spec.marginH + i as real * spec.cellH;
    Op.Line(originX + spec.marginW, y, originX + spec.marginW + spec.gridW, y)
  }

  /** The first `n` pairs of grid lines, each vertical line followed by its horizontal one. */
  function GridOps(spec: LayoutSpec, originX: real, originY: real, n: nat): seq<Op>
  {
    if n == 0 then []
    else GridOps(spec, originX, originY, n - 1)
         + [VerticalLine(spec, originX, originY, n - 1), HorizontalLine(spec, originX, originY, n - 1)]
  }

  /** The lines of an item, each centred at `x` on its baseline in a block centred on `centerY`. */
  function CellTextOps(a: TextBlockAligner, x: real, centerY: real, item: string): (r: seq<Op>)
  {
    var lines := SplitLines(item);
    seq(|lines|, i requires 0 <= i < |lines| =>
      Op.DrawCentredString(x, Baseline(a, |lines|, centerY, i), lines[i]))
  }

  function CellCenterX(spec: LayoutSpec, originX: real, xi: int): real
  {
    originX + spec.marginW + spec.cellW / 2.0 + xi as real * spec.cellW
  }

  function CellCenterY(spec: LayoutSpec, originY: real, yi: int): real
  {
    originY + spec.marginH + spec.cellH / 2.0 + yi as real * spec.cellH
  }

  /** Text of the cells `(xi, 0) .. (xi, m - 1)` of column `xi`. */
  function ColumnOps(a: TextBlockAligner, spec: LayoutSpec, items: seq<string>,
                     originX: real, originY: real, xi: int, m: nat): seq<Op>
    requires |items| == CellCount(spec.cellSize)
    requires 0 <= xi < Count(spec.cellSize) && m <= Count(spec.cellSize)
  {
    if m == 0 then []
    else
      GridIndexBounds(spec.cellSize, xi, m - 1);
      ColumnOps(a, spec, items, originX, originY, xi, m - 1)
      + CellTextOps(a, CellCenterX(spec, originX, xi), CellCenterY(spec, originY, m - 1),
                    items[GridIndex(spec.cellSize, xi, m - 1)])
  }

  /** Text of all cells of columns `0 .. n - 1`. */
  function CellsOps(a: TextBlockAligner, spec: LayoutSpec, items: seq<string>,
                    originX: real, originY: real, n: nat): seq<Op>
    requires |items| == CellCount(spec.cellSize)
    requires n <= Count(spec.cellSize)
  {
    if n == 0 then []
    else CellsOps(a, spec, items, originX, originY, n - 1)
         + ColumnOps(a, spec, items, originX, originY, n - 1, Count(spec.cellSize))
  }

  /** Everything one card draws, given the items selected for it. */
  function CardOps(a: TextBlockAligner, data: BingoData, spec: LayoutSpec, items: seq<string>,
                   originX: real, originY: real): seq<Op>
    requires |items| == CellCount(spec.cellSize)
  {
    FrameOps(data, spec, originX, originY)
    + GridOps(spec, originX, originY, Count(spec.cellSize + 1))
    + CellsOps(a, spec, items, originX, originY, Count(spec.cellSize))
  }

  /** The grid-line loop of `_draw_bingo_card`: `cell_size + 1` vertical and horizontal lines. */
  method DrawGridLines(c: Canvas, spec: LayoutSpec, originX: real, originY: real)
    modifies c
    ensures c.ops == old(c.ops) + GridOps(spec, originX, originY, Count(spec.cellSize + 1))
  {
    for i := 0 to Count(spec.cellSize + 1)
      invariant c.ops == old(c.ops) + GridOps(spec, originX, originY, i)
    {
      ghost var drawn := c.ops;
      var x := originX + spec.marginW + i as real * spec.cellW;
      c.Line(x, originY + spec.marginH, x, originY + spec.marginH + spec.gridH);
      assert VerticalLine(spec, originX, originY, i)
          == Op.Line(x, originY + spec.marginH, x, originY + spec.marginH + spec.gridH);
      var y := originY + spec.marginH + i as real * spec.cellH;
      c.Line(originX + spec.marginW, y, originX + spec.marginW + spec.gridW, y);
      assert HorizontalLine(spec, originX, originY, i)
          == Op.Line(originX + spec.marginW, y, originX + spec.marginW + spec.gridW, y);
      assert c.ops == drawn + [VerticalLine(spec, originX, originY, i)] + [HorizontalLine(spec, originX, originY, i)];
    }
  }

  /** The text of one cell: the item split into lines, each drawn centred on its baseline. */
  method DrawCellText(c: Canvas, a: TextBlockAligner, x: real, y: real, item: string)
    modifies c
    ensures c.ops == old(c.ops) + CellTextOps(a, x, y, item)
  {
    var lines := SplitLines(item);
    var alignedYs := ComputeLineYPositions(a, |lines|, y);
    for k := 0 to |lines|
      invariant c.ops == old(c.ops) + CellTextOps(a, x, y, item)[..k]
    {
      c.DrawCentredString(x, alignedYs[k], lines[k]);
      assert CellTextOps(a, x, y, item)[..k + 1]
          == CellTextOps(a, x, y, item)[..k] + [Op.DrawCentredString(x, alignedYs[k], lines[k])];
    }
    assert CellTextOps(a, x, y, item)[..|lines|] == CellTextOps(a, x, y, item);
  }

  /** The inner cell loop of `_draw_bingo_card`: the cells of column `xi`, bottom to top. */
  method DrawColumn(c: Canvas, a: TextBlockAligner, spec: LayoutSpec, items: seq<string>,
                    originX: real, originY: real, xi: int)
    requires |items| == CellCount(spec.cellSize)
    requires 0 <= xi < Count(spec.cellSize)
    modifies c
    ensures c.ops == old(c.ops) + ColumnOps(a, spec, items, originX, originY, xi, Count(spec.cellSize))
  {
    var x := CellCenterX(spec, originX, xi);
    for yi := 0 to Count(spec.cellSize)
      invariant c.ops == old(c.ops) + ColumnOps(a, spec, items, originX, originY, xi, yi)
    {
      var y := CellCenterY(spec, originY, yi);
      GridIndexBounds(spec.cellSize, xi, yi);
      ghost var before := c.ops;
      DrawCellText(c, a, x, y, items[GridIndex(spec.cellSize, xi, yi)]);
      AppendStep(old(c.ops), before, c.ops, ColumnOps(a, spec, items, originX, originY, xi, yi),
                 CellTextOps(a, x, y, items[GridIndex(spec.cellSize, xi, yi)]));
    }
  }

  /** The cell loops of `_draw_bingo_card`: cell `(xi, yi)` shows item `xi * cell_size + yi`. */
  method DrawCells(c: Canvas, a: TextBlockAligner, spec: LayoutSpec, items: seq<string>,
                   originX: real, originY: real)
    requires |items| == CellCount(spec.cellSize)
    modifies c
    ensures c.ops == old(c.ops) + CellsOps(a, spec, items, originX, originY, Count(spec.cellSize))
  {
    for xi := 0 to Count(spec.cellSize)
      invariant c.ops == old(c.ops) + CellsOps(a, spec, items, originX, originY, xi)
    {
      ghost var before := c.ops;
      DrawColumn(c, a, spec, items, originX, originY, xi);
      AppendStep(old(c.ops), before, c.ops, CellsOps(a, spec, items, originX, originY, xi),
                 ColumnOps(a, spec, items, originX, originY, xi, Count(spec.cellSize)));
    }
  }

  /**
    `_draw_bingo_card`: title, grid border, `cell_size + 1` vertical and
    horizontal lines, then one item selection and the text of every cell,
    cell `(xi, yi)` showing item `xi * cell_size + yi`. An empty pool makes
    the selection fail after the grid has been drawn.
   */
  method DrawBingoCard(c: Canvas, data: BingoData, spec: LayoutSpec, font: FontMetrics,
                       draws: seq<int>, originX: real, originY: real) returns (r: Outcome<SelectError>)
    requires CardOracleFits(data, spec.cellSize, draws)
    modifies c
    ensures r.Fail? <==> NoItemsToDraw(data, spec.cellSize)
    ensures r.Pass? ==>
      c.ops == old(c.ops) + CardOps(ItemAligner(spec, font), data, spec,
                                    PickCellItems(data, spec.cellSize, draws).value, originX, originY)
    ensures r.Fail? ==>
      c.ops == old(c.ops) + FrameOps(data, spec, originX, originY)
                          + GridOps(spec, originX, originY, Count(spec.cellSize + 1))
  {
    c.SetFont(spec.fontType, spec.titleFontSize);
    c.DrawCentredString(originX + spec.cardW / 2.0,
                        originY + spec.cardH - spec.marginH - spec.titleFontSize, data.title);
    c.SetFont(spec.fontType, spec.itemFontSize);
    c.Rect(originX + spec.marginW, originY + spec.marginH, spec.gridW, spec.gridH, false);
    ghost var frame := FrameOps(data, spec, originX, originY);
    assert c.ops == old(c.ops) + frame;
    ghost var framed := c.ops;
    DrawGridLines(c, spec, originX, originY);
    ghost var grid := GridOps(spec, originX, originY, Count(spec.cellSize + 1));
    AppendStep(old(c.ops), framed, c.ops, frame, grid);

    var aligner := NewTextBlockAligner(spec.itemFontSize, font.ascent, font.descent);
    var picked := PickCellItems(data, spec.cellSize, draws);
    if picked.Failure? {
      return Fail(picked.error);
    }
    ghost var gridded := c.ops;
    DrawCells(c, aligner, spec, picked.value, originX, originY);
    AppendStep(old(c.ops), gridded, c.ops, frame + grid,
               CellsOps(aligner, spec, picked.value, originX, originY, Count(spec.cellSize)));
    r := Pass;
  }

  /** What a card draws when its selection fails: title, border and grid, and no text. */
  function FailedCardOps(data: BingoData, spec: LayoutSpec, originX: real, originY: real): seq<Op>
  {
    FrameOps(data, spec, originX, originY) + GridOps(spec, originX, originY, Count(spec.cellSize + 1))
  }

  // ---------------------------------------------------------------------------
  // What a card's commands contain, and where they sit
  // ---------------------------------------------------------------------------

  /** The grid part of a card is `2 n` lines. */
  lemma {:induction false} GridOpsAreLines(spec: LayoutSpec, originX: real, originY: real, n: nat)
    ensures |GridOps(spec, originX, originY, n)| == 2 * n
    ensures forall i | 0 <= i < 2 * n :: IsLine(GridOps(spec, originX, originY, n)[i])
  {
    if n > 0 {
      GridOpsAreLines(spec, originX, originY, n - 1);
    }
  }

  lemma {:induction false} ColumnOpsAreText(a: TextBlockAligner, spec: LayoutSpec, items: seq<string>,
                                            originX: real, originY: real, xi: int, m: nat)
    requires |items| == CellCount(spec.cellSize)
    requires 0 <= xi < Count(spec.cellSize) && m <= Count(spec.cellSize)
    ensures forall i | 0 <= i < |ColumnOps(a, spec, items, originX, originY, xi, m)| ::
      IsText(ColumnOps(a, spec, items, originX, originY, xi, m)[i])
  {
    if m > 0 {
      ColumnOpsAreText(a, spec, items, originX, originY, xi, m - 1);
    }
  }

  /** The cell part of a card is text only. */
  lemma {:induction false} CellsOpsAreText(a: TextBlockAligner, spec: LayoutSpec, items: seq<string>,
                                           originX: real, originY: real, n: nat)
    requires |items| == CellCount(spec.cellSize)
    requires n <= Count(spec.cellSize)
    ensures forall i | 0 <= i < |CellsOps(a, spec, items, originX, originY, n)| ::
      IsText(CellsOps(a, spec, items, originX, originY, n)[i])
  {
    if n > 0 {
      CellsOpsAreText(a, spec, items, originX, originY, n - 1);
      ColumnOpsAreText(a, spec, items, originX, originY, n - 1, Count(spec.cellSize));
    }
  }

  /**
    Whatever the items, a card draws exactly one rectangle (the grid border),
    `2 (cell_size + 1)` grid lines, and neither a page break nor a save.
   */
  lemma CardContents(a: TextBlockAligner, data: BingoData, spec: LayoutSpec, items: seq<string>,
                     originX: real, originY: real)
    requires |items| == CellCount(spec.cellSize)
    ensures CountOf(CardOps(a, data, spec, items, originX, originY), IsRect) == 1
    ensures CountOf(CardOps(a, data, spec, items, originX, originY), IsLine) == 2 * Count(spec.cellSize + 1)
    ensures CountOf(CardOps(a, data, spec, items, originX, originY), IsPageBreak) == 0
    ensures CountOf(CardOps(a, data, spec, items, originX, originY), IsSave) == 0
  {
    var frame := FrameOps(data, spec, originX, originY);
    var grid := GridOps(spec, originX, originY, Count(spec.cellSize + 1));
    var cells := CellsOps(a, spec, items, originX, originY, Count(spec.cellSize));
    GridOpsAreLines(spec, originX, originY, Count(spec.cellSize + 1));
    CellsOpsAreText(a, spec, items, originX, originY, Count(spec.cellSize));
    FrameContents(data, spec, originX, originY);
    CountAll(grid, IsLine);
    CountNone(grid, IsRect);
    CountNone(grid, IsPageBreak);
    CountNone(grid, IsSave);
    CountNone(cells, IsRect);
    CountNone(cells, IsLine);
    CountNone(cells, IsPageBreak);
    CountNone(cells, IsSave);
    assert CardOps(a, data, spec, items, originX, originY) == frame + grid + cells;
    CountAppend3(frame, grid, cells, IsRect);
    CountAppend3(frame, grid, cells, IsLine);
    CountAppend3(frame, grid, cells, IsPageBreak);
    CountAppend3(frame, grid, cells, IsSave);
  }

  /** The frame of a card: one rectangle, no line, no page break, no save. */
  lemma FrameContents(data: BingoData, spec: LayoutSpec, originX: real, originY: real)
    ensures CountOf(FrameOps(data, spec, originX, originY), IsRect) == 1
    ensures CountOf(FrameOps(data, spec, originX, originY), IsLine) == 0
    ensures CountOf(FrameOps(data, spec, originX, originY), IsPageBreak) == 0
    ensures CountOf(FrameOps(data, spec, originX, originY), IsSave) == 0
  {
    var frame := FrameOps(data, spec, originX, originY);
    var last := frame[3..];
    assert last == [frame[3]];
    CountAll(last, IsRect);
    CountNone(frame[..3], IsRect);
    CountNone(frame, IsLine);
    CountNone(frame, IsPageBreak);
    CountNone(frame, IsSave);
    assert frame == frame[..3] + last;
    CountAppend(frame[..3], last, IsRect);
  }

  /**
    With consistent geometry and at least one cell, the outermost grid lines
    run along the edges of the border rectangle `(x, y, w, h)` that the frame
    draws: vertical lines at `x` and `x + w`, horizontal ones at `y` and
    `y + h`, each spanning the rectangle.
   */
  lemma GridLinesMeetBorder(spec: LayoutSpec, originX: real, originY: real)
    requires WellFormed(spec) && spec.cellSize >= 1
    ensures var x, y := originX + spec.marginW, originY + spec.marginH;
      && VerticalLine(spec, originX, originY, 0) == Op.Line(x, y, x, y + spec.gridH)
      && VerticalLine(spec, originX, originY, spec.cellSize) == Op.Line(x + spec.gridW, y, x + spec.gridW, y + spec.gridH)
      && HorizontalLine(spec, originX, originY, 0) == Op.Line(x, y, x + spec.gridW, y)
      && HorizontalLine(spec, originX, originY, spec.cellSize) == Op.Line(x, y + spec.gridH, x + spec.gridW, y + spec.gridH)
  {
    assert spec.cellSize as real * spec.cellW == spec.gridW;
    assert spec.cellSize as real * spec.cellH == spec.gridH;
  }

  /** The text of cell `(xi, yi)` is centred between grid lines `xi`, `xi + 1` and `yi`, `yi + 1`. */
  lemma CellCentredBetweenLines(spec: LayoutSpec, originX: real, originY: real, xi: int, yi: int)
    ensures 2.0 * CellCenterX(spec, originX, xi)
         == VerticalLine(spec, originX, originY, xi).x1 + VerticalLine(spec, originX, originY, xi + 1).x1
    ensures 2.0 * CellCenterY(spec, originY, yi)
         == HorizontalLine(spec, originX, originY, yi).y1 + HorizontalLine(spec, originX, originY, yi + 1).y1
  {
    assert (xi + 1) as real * spec.cellW == xi as real * spec.cellW + spec.cellW;
    assert (yi + 1) as real * spec.cellH == yi as real * spec.cellH + spec.cellH;
  }

  /**
    The title baseline sits in the strip kept free above the grid: one title
    font size below the top margin, which leaves `0.4` title sizes between it
    and the top of the grid.
   */
  lemma TitleAboveGrid(spec: LayoutSpec, originY: real)
    requires WellFormed(spec)
    ensures TitleY(spec, originY) - (originY + spec.marginH + spec.gridH) == (TitleStripFactor - 1.0) * spec.titleFontSize
  {
  }
}
