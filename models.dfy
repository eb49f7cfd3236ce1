/**
  The two records of the layout engine (bingo_maker/pdf/models.py):
  the bingo content with its cell-item selection policy, and the layout
  specification with the geometry derived from the page size.
 */
module Models {
  import opened Wrappers

  /** Number of iterations of `range(n)`: nothing for a negative bound. */
  function Count(n: int): nat
  {
    if n < 0 then 0 else n
  }

  // ---------------------------------------------------------------------------
  // BingoData and the cell-item selection
  // ---------------------------------------------------------------------------

  datatype BingoData = BingoData(title: string, items: seq<string>, allowDuplicates: bool)

  /** Why a selection cannot be made: drawing with replacement from an empty pool. */
  datatype SelectError = EmptyPool

  /** Number of items one card needs: `cell_size ** 2`. */
  function CellCount(cellSize: int): nat
  {
    cellSize * cellSize
  }

  /** The selection samples WITHOUT replacement (`random.sample`). */
  predicate SamplesWithoutReplacement(data: BingoData, cellSize: int)
  {
    !data.allowDuplicates && |data.items| >= CellCount(cellSize)
  }

  predicate Distinct<T(==)>(s: seq<T>)
  {
    forall i, j | 0 <= i < j < |s| :: s[i] != s[j]
  }

  /**
    What the random source supplies for one selection: the pool positions it
    draws, one per cell, all inside the pool, and pairwise distinct when the
    draw is without replacement. An empty pool has no positions to draw, so
    the oracle is then empty.
   */
  predicate OracleFits(draws: seq<int>, poolSize: nat, n: nat, distinct: bool)
  {
    && (|draws| == n || poolSize == 0)
    && (forall i | 0 <= i < |draws| :: 0 <= draws[i] < poolSize)
    && (distinct ==> Distinct(draws))
  }

  predicate CardOracleFits(data: BingoData, cellSize: int, draws: seq<int>)
  {
    OracleFits(draws, |data.items|, CellCount(cellSize), SamplesWithoutReplacement(data, cellSize))
  }

  /** Selection fails exactly when items are needed and the pool is empty. */
  predicate NoItemsToDraw(data: BingoData, cellSize: int)
  {
    data.items == [] && CellCount(cellSize) > 0
  }

  /**
    `BingoData.pick_cell_items`: `random.choices` (with replacement) when
    duplicates are allowed or the pool is too small, `random.sample`
    otherwise; either way `cell_size ** 2` items. The random source is the
    oracle `draws`.
   */
  function PickCellItems(data: BingoData, cellSize: int, draws: seq<int>): (r: Result<seq<string>, SelectError>)
    requires CardOracleFits(data, cellSize, draws)
    ensures r.Failure? <==> NoItemsToDraw(data, cellSize)
    ensures r.Success? ==> |r.value| == CellCount(cellSize)
    ensures r.Success? ==> forall k | 0 <= k < |r.value| :: r.value[k] in data.items
    ensures r.Success? ==> forall k | 0 <= k < |r.value| :: r.value[k] == data.items[draws[k]]
  {
    var n := CellCount(cellSize);
    if n > 0 && data.items == [] then
      Failure(EmptyPool)
    else
      Success(seq(n, k requires 0 <= k < n => data.items[draws[k]]))
  }

  /**
    Without replacement the result is drawn at pairwise-distinct pool
    positions, so a pool without repeats yields cells without repeats.
   */
  lemma SampleHasNoRepeats(data: BingoData, cellSize: int, draws: seq<int>)
    requires CardOracleFits(data, cellSize, draws)
    requires SamplesWithoutReplacement(data, cellSize)
    requires Distinct(data.items)
    ensures PickCellItems(data, cellSize, draws).Success?
    ensures Distinct(PickCellItems(data, cellSize, draws).value)
  {
    var r := PickCellItems(data, cellSize, draws).value;
    forall i, j | 0 <= i < j < |r| ensures r[i] != r[j] {
      assert draws[i] != draws[j];
    }
  }

  /**
    A pool smaller than `cell_size ** 2` without duplicates allowed does not
    fail: it falls back to drawing with replacement, which succeeds whenever
    the pool is non-empty.
   */
  lemma SmallPoolFallsBack(data: BingoData, cellSize: int, draws: seq<int>)
    requires CardOracleFits(data, cellSize, draws)
    requires !data.allowDuplicates && 0 < |data.items| < CellCount(cellSize)
    ensures !SamplesWithoutReplacement(data, cellSize)
    ensures PickCellItems(data, cellSize, draws).Success?
    ensures |PickCellItems(data, cellSize, draws).value| == CellCount(cellSize)
  {
  }

  // ---------------------------------------------------------------------------
  // BingoLayoutSpec and its derived geometry
  // ---------------------------------------------------------------------------

  /** Vertical space reserved for the title line, as a multiple of its font size. */
  const TitleStripFactor: real := 1.4

  datatype LayoutSpec = LayoutSpec(
    pageW: real, pageH: real,
    cardSize: int, cellSize: int,
    marginRatio: real,
    fontType: string,
    titleFontSize: real, itemFontSize: real,
    cardW: real, cardH: real,
    marginW: real, marginH: real,
    gridW: real, gridH: real,
    cellW: real, cellH: real)

  /** Division by a zero card or cell count, where Python raises ZeroDivisionError. */
  datatype LayoutError = ZeroDivision

  /**
    The geometry relations the derived fields satisfy: the cards tile the
    page, the margins are the given fraction of a card, the grid is the card
    less two margins (and, vertically, the title strip), and the cells tile
    the grid.
   */
  predicate WellFormed(s: LayoutSpec)
  {
    && s.cardSize != 0 && s.cellSize != 0
    && s.cardW * s.cardSize as real == s.pageW
    && s.cardH * s.cardSize as real == s.pageH
    && s.marginW == s.cardW * s.marginRatio
    && s.marginH == s.cardH * s.marginRatio
    && s.gridW == s.cardW - 2.0 * s.marginW
    && s.gridH == s.cardH - 2.0 * s.marginH - TitleStripFactor * s.titleFontSize
    && s.cellW * s.cellSize as real == s.gridW
    && s.cellH * s.cellSize as real == s.gridH
  }

  /** `BingoLayoutSpec(...)` with its `__post_init__`. */
  function NewLayoutSpec(
    pageW: real, pageH: real, cardSize: int, cellSize: int, marginRatio: real,
    fontType: string, titleFontSize: real, itemFontSize: real): (r: Result<LayoutSpec, LayoutError>)
    ensures r.Failure? <==> cardSize == 0 || cellSize == 0
    ensures r.Success? ==> WellFormed(r.value)
    ensures r.Success? ==>
      && r.value.pageW == pageW && r.value.pageH == pageH
      && r.value.cardSize == cardSize && r.value.cellSize == cellSize
      && r.value.marginRatio == marginRatio && r.value.fontType == fontType
      && r.value.titleFontSize == titleFontSize && r.value.itemFontSize == itemFontSize
  {
    if cardSize == 0 || cellSize == 0 then
      Failure(ZeroDivision)
    else
      var cardW := pageW / cardSize as real;
      var cardH := pageH / cardSize as real;
      var marginW := cardW * marginRatio;
      var marginH := cardH * marginRatio;
      var gridW := cardW - 2.0 * marginW;
      var gridH := cardH - 2.0 * marginH - titleFontSize * TitleStripFactor;
      var cellW := gridW / cellSize as real;
      var cellH := gridH / cellSize as real;
      Success(LayoutSpec(pageW, pageH, cardSize, cellSize, marginRatio, fontType,
                         titleFontSize, itemFontSize,
                         cardW, cardH, marginW, marginH, gridW, gridH, cellW, cellH))
  }

  /** The geometry relations leave no freedom: they fix every derived field. */
  lemma DerivedFieldsUnique(s: LayoutSpec, t: LayoutSpec)
    requires WellFormed(s) && WellFormed(t)
    requires s.pageW == t.pageW && s.pageH == t.pageH
    requires s.cardSize == t.cardSize && s.cellSize == t.cellSize
    requires s.marginRatio == t.marginRatio && s.titleFontSize == t.titleFontSize
    ensures s.cardW == t.cardW && s.cardH == t.cardH
    ensures s.marginW == t.marginW && s.marginH == t.marginH
    ensures s.gridW == t.gridW && s.gridH == t.gridH
    ensures s.cellW == t.cellW && s.cellH == t.cellH
  {
    CancelFactor(s.cardW, t.cardW, s.cardSize as real);
    CancelFactor(s.cardH, t.cardH, s.cardSize as real);
    CancelFactor(s.cellW, t.cellW, s.cellSize as real);
    CancelFactor(s.cellH, t.cellH, s.cellSize as real);
  }

  lemma CancelFactor(a: real, b: real, k: real)
    requires k != 0.0 && a * k == b * k
    ensures a == b
  {
    assert (a - b) * k == 0.0;
  }

  /**
    The grid has positive width exactly when the margins leave something of
    the card: for a positive card width, exactly when the margin ratio is
    below one half.
   */
  lemma GridWidthPositive(s: LayoutSpec)
    requires WellFormed(s)
    ensures s.gridW == s.cardW * (1.0 - 2.0 * s.marginRatio)
    ensures s.gridW > 0.0 <==> (s.cardW > 0.0 && s.marginRatio < 0.5) || (s.cardW < 0.0 && s.marginRatio > 0.5)
    ensures s.cardW > 0.0 ==> (s.gridW > 0.0 <==> s.marginRatio < 0.5)
  {
    var g := 1.0 - 2.0 * s.marginRatio;
    assert s.gridW == s.cardW * g;
    if s.cardW > 0.0 && g > 0.0 { PositiveProduct(s.cardW, g); }
    if s.cardW < 0.0 && g < 0.0 { PositiveProduct(-s.cardW, -g); }
    if s.cardW >= 0.0 && g <= 0.0 { NonPositiveProduct(s.cardW, g); }
    if s.cardW <= 0.0 && g >= 0.0 { NonPositiveProduct(g, s.cardW); }
  }

  lemma PositiveProduct(a: real, b: real)
    requires a > 0.0 && b > 0.0
    ensures a * b > 0.0
  {
  }

  lemma NonPositiveProduct(a: real, b: real)
    requires a >= 0.0 && b <= 0.0
    ensures a * b <= 0.0
  {
  }

  /** Coordinate, along one axis, of the corner of the `i`-th card of a page: `card_w * xi` or `card_h * yi`. */
  function CardOrigin(cardSide: real, i: int): real
  {
    cardSide * i as real
  }

  /**
    Card `(xi, yi)` of a page has origin `(card_w * xi, card_h * yi)`; for a
    positive page and card count, the cards lie inside the page and the last
    row and column end exactly on its far edges; each card ends where the
    next one begins.
   */
  lemma CardsTilePage(s: LayoutSpec, xi: int, yi: int)
    requires WellFormed(s) && s.cardSize > 0 && s.pageW > 0.0 && s.pageH > 0.0
    requires 0 <= xi < s.cardSize && 0 <= yi < s.cardSize
    ensures 0.0 <= CardOrigin(s.cardW, xi) && CardOrigin(s.cardW, xi) + s.cardW <= s.pageW
    ensures 0.0 <= CardOrigin(s.cardH, yi) && CardOrigin(s.cardH, yi) + s.cardH <= s.pageH
    ensures xi == s.cardSize - 1 ==> CardOrigin(s.cardW, xi) + s.cardW == s.pageW
    ensures yi == s.cardSize - 1 ==> CardOrigin(s.cardH, yi) + s.cardH == s.pageH
    ensures CardOrigin(s.cardW, xi) + s.cardW == CardOrigin(s.cardW, xi + 1)
    ensures CardOrigin(s.cardH, yi) + s.cardH == CardOrigin(s.cardH, yi + 1)
  {
    CardEdge(s.cardW, s.cardSize, xi, s.pageW);
    CardEdge(s.cardH, s.cardSize, yi, s.pageH);
  }

  lemma CardEdge(w: real, n: int, i: int, page: real)
    requires n > 0 && 0 <= i < n && w * n as real == page && page > 0.0
    ensures 0.0 <= w * i as real && w * i as real + w <= page
    ensures w * i as real + w == w * (i + 1) as real
  {
    assert w > 0.0 by {
      if w <= 0.0 { NonPositiveProduct(n as real, w); }
    }
    assert w * i as real + w == w * (i + 1) as real;
    NonNegativeProduct(w, n as real - (i + 1) as real);
    NonNegativeProduct(w, i as real);
    assert w * (n as real - (i + 1) as real) == page - w * (i + 1) as real;
  }

  lemma NonNegativeProduct(a: real, b: real)
    requires a >= 0.0 && b >= 0.0
    ensures a * b >= 0.0
  {
  }
}
