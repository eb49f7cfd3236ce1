/**
  Pages and the document (bingo_maker/pdf/renderer.py: render_bingo_pdf and
  _draw_bingo_cards): the cards of each page in column order, a page break
  after every page and one save at the end, with the random source supplied
  as one card oracle per card position and page.
 */
module Rendering {
  import opened Wrappers
  import opened Models
  import opened Drawing
  /** Cards on one page: `card_size` columns of `card_size` cards. */
  function CardsPerPage(spec: LayoutSpec): nat
  {
    Count(spec.cardSize) * Count(spec.cardSize)
  }

  /** The oracles of one page, `pageDraws[xi][yi]` for card `(xi, yi)`. */
  predicate PageOracleFits(data: BingoData, spec: LayoutSpec, pageDraws: seq<seq<seq<int>>>)
  {
    && |pageDraws| == Count(spec.cardSize)
    && forall xi | 0 <= xi < |pageDraws| ::
         && |pageDraws[xi]| == Count(spec.cardSize)
         && forall yi | 0 <= yi < |pageDraws[xi]| :: CardOracleFits(data, spec.cellSize, pageDraws[xi][yi])
  }

  /** Every card of a page can be filled: there are no cards, or there are items to draw from. */
  predicate Renderable(data: BingoData, spec: LayoutSpec)
  {
    Count(spec.cardSize) == 0 || !NoItemsToDraw(data, spec.cellSize)
  }

  /** Card `(xi, yi)` of a page, drawn at origin `(card_w * xi, card_h * yi)`. */
  function CardAt(font: FontMetrics, data: BingoData, spec: LayoutSpec, pageDraws: seq<seq<seq<int>>>,
                  xi: int, yi: int): seq<Op>
    requires PageOracleFits(data, spec, pageDraws) && Renderable(data, spec)
    requires 0 <= xi < Count(spec.cardSize) && 0 <= yi < Count(spec.cardSize)
  {
    CardOps(ItemAligner(spec, font), data, spec, PickCellItems(data, spec.cellSize, pageDraws[xi][yi]).value,
            CardOrigin(spec.cardW, xi), CardOrigin(spec.cardH, yi))
  }

  /** Cards `(xi, 0) .. (xi, m - 1)`. */
  function CardColumnOps(font: FontMetrics, data: BingoData, spec: LayoutSpec, pageDraws: seq<seq<seq<int>>>,
                         xi: int, m: nat): seq<Op>
    requires PageOracleFits(data, spec, pageDraws) && Renderable(data, spec)
    requires 0 <= xi < Count(spec.cardSize) && m <= Count(spec.cardSize)
  {
    if m == 0 then []
    else CardColumnOps(font, data, spec, pageDraws, xi, m - 1) + CardAt(font, data, spec, pageDraws, xi, m - 1)
  }

  /** All cards of columns `0 .. n - 1` of a page. */
  function PageOps(font: FontMetrics, data: BingoData, spec: LayoutSpec, pageDraws: seq<seq<seq<int>>>, n: nat): seq<Op>
    requires PageOracleFits(data, spec, pageDraws) && Renderable(data, spec)
    requires n <= Count(spec.cardSize)
  {
    if n == 0 then []
    else PageOps(font, data, spec, pageDraws, n - 1)
         + CardColumnOps(font, data, spec, pageDraws, n - 1, Count(spec.cardSize))
  }

  /** One iteration of the inner loop of `_draw_bingo_cards`: card `(xi, yi)` at its origin. */
  method DrawCardAt(c: Canvas, data: BingoData, spec: LayoutSpec, font: FontMetrics,
                    pageDraws: seq<seq<seq<int>>>, xi: int, yi: int) returns (r: Outcome<SelectError>)
    requires PageOracleFits(data, spec, pageDraws)
    requires 0 <= xi < Count(spec.cardSize) && 0 <= yi < Count(spec.cardSize)
    modifies c
    ensures r.Fail? <==> !Renderable(data, spec)
    ensures r.Pass? ==> c.ops == old(c.ops) + CardAt(font, data, spec, pageDraws, xi, yi)
    ensures r.Fail? ==> c.ops == old(c.ops) + FailedCardOps(data, spec, CardOrigin(spec.cardW, xi), CardOrigin(spec.cardH, yi))
  {
    r := DrawBingoCard(c, data, spec, font, pageDraws[xi][yi], CardOrigin(spec.cardW, xi), CardOrigin(spec.cardH, yi));
  }

  /**
    The inner loop of `_draw_bingo_cards`: the cards of column `cardXi`. If
    the pool is empty the first card fails and nothing more is drawn.
   */
  method DrawCardColumn(c: Canvas, data: BingoData, spec: LayoutSpec, font: FontMetrics,
                        pageDraws: seq<seq<seq<int>>>, cardXi: int) returns (r: Outcome<SelectError>)
    requires PageOracleFits(data, spec, pageDraws)
    requires 0 <= cardXi < Count(spec.cardSize)
    modifies c
    ensures r.Fail? <==> !Renderable(data, spec)
    ensures r.Pass? ==> c.ops == old(c.ops) + CardColumnOps(font, data, spec, pageDraws, cardXi, Count(spec.cardSize))
    ensures r.Fail? ==> c.ops == old(c.ops) + FailedCardOps(data, spec, CardOrigin(spec.cardW, cardXi), CardOrigin(spec.cardH, 0))
  {
    for cardYi := 0 to Count(spec.cardSize)
      invariant cardYi > 0 ==> Renderable(data, spec)
      invariant cardYi > 0 ==> c.ops == old(c.ops) + CardColumnOps(font, data, spec, pageDraws, cardXi, cardYi)
      invariant cardYi == 0 ==> c.ops == old(c.ops)
    {
      ghost var before := c.ops;
      r := DrawCardAt(c, data, spec, font, pageDraws, cardXi, cardYi);
      if r.Fail? {
        assert cardYi == 0;
        return;
      }
      AppendStep(old(c.ops), before, c.ops, CardColumnOps(font, data, spec, pageDraws, cardXi, cardYi),
                 CardAt(font, data, spec, pageDraws, cardXi, cardYi));
    }
    r := Pass;
  }

  /**
    `_draw_bingo_cards`: the `card_size` by `card_size` cards of one page,
    column by column, card `(xi, yi)` at `(card_w * xi, card_h * yi)`. If the
    pool is empty the very first card fails and nothing more is drawn.
   */
  method DrawBingoCards(c: Canvas, data: BingoData, spec: LayoutSpec, font: FontMetrics,
                        pageDraws: seq<seq<seq<int>>>) returns (r: Outcome<SelectError>)
    requires PageOracleFits(data, spec, pageDraws)
    modifies c
    ensures r.Fail? <==> !Renderable(data, spec)
    ensures r.Pass? ==> c.ops == old(c.ops) + PageOps(font, data, spec, pageDraws, Count(spec.cardSize))
    ensures r.Fail? ==> c.ops == old(c.ops) + FailedCardOps(data, spec, 0.0, 0.0)
  {
    for cardXi := 0 to Count(spec.cardSize)
      invariant cardXi > 0 ==> Renderable(data, spec)
      invariant cardXi > 0 ==> c.ops == old(c.ops) + PageOps(font, data, spec, pageDraws, cardXi)
      invariant cardXi == 0 ==> c.ops == old(c.ops)
    {
      ghost var before := c.ops;
      r := DrawCardColumn(c, data, spec, font, pageDraws, cardXi);
      if r.Fail? {
        assert cardXi == 0;
        assert CardOrigin(spec.cardW, 0) == 0.0 && CardOrigin(spec.cardH, 0) == 0.0;
        return;
      }
      AppendStep(old(c.ops), before, c.ops, PageOps(font, data, spec, pageDraws, cardXi),
                 CardColumnOps(font, data, spec, pageDraws, cardXi, Count(spec.cardSize)));
    }
    r := Pass;
  }

  /** One oracle list per page. */
  predicate DocumentOracleFits(data: BingoData, spec: LayoutSpec, draws: seq<seq<seq<seq<int>>>>)
  {
    forall p | 0 <= p < |draws| :: PageOracleFits(data, spec, draws[p])
  }

  /** One page: stroke settings, its cards, and the page break. */
  function PageWithBreakOps(font: FontMetrics, data: BingoData, spec: LayoutSpec, pageDraws: seq<seq<seq<int>>>): seq<Op>
    requires PageOracleFits(data, spec, pageDraws) && Renderable(data, spec)
  {
    [Op.SetStrokeColor(Black), Op.SetLineWidth(1.0)]
    + PageOps(font, data, spec, pageDraws, Count(spec.cardSize))
    + [Op.ShowPage]
  }

  /** The first `p` pages. */
  function PagesOps(font: FontMetrics, data: BingoData, spec: LayoutSpec, draws: seq<seq<seq<seq<int>>>>, p: nat): seq<Op>
    requires DocumentOracleFits(data, spec, draws) && p <= |draws|
    requires p == 0 || Renderable(data, spec)
  {
    if p == 0 then []
    else PagesOps(font, data, spec, draws, p - 1) + PageWithBreakOps(font, data, spec, draws[p - 1])
  }

  /** The whole document: every page, then one save. */
  function DocumentOps(font: FontMetrics, data: BingoData, spec: LayoutSpec, draws: seq<seq<seq<seq<int>>>>): seq<Op>
    requires DocumentOracleFits(data, spec, draws)
    requires |draws| == 0 || Renderable(data, spec)
  {
    PagesOps(font, data, spec, draws, |draws|) + [Op.Save]
  }

  /** One iteration of the page loop of `render_bingo_pdf`: stroke settings, the cards, the page break. */
  method DrawPage(c: Canvas, data: BingoData, spec: LayoutSpec, font: FontMetrics,
                  pageDraws: seq<seq<seq<int>>>) returns (r: Outcome<SelectError>)
    requires PageOracleFits(data, spec, pageDraws)
    modifies c
    ensures r.Fail? <==> !Renderable(data, spec)
    ensures r.Pass? ==> c.ops == old(c.ops) + PageWithBreakOps(font, data, spec, pageDraws)
    ensures r.Fail? ==>
      c.ops == old(c.ops) + ([Op.SetStrokeColor(Black), Op.SetLineWidth(1.0)] + FailedCardOps(data, spec, 0.0, 0.0))
  {
    ghost var setup := [Op.SetStrokeColor(Black), Op.SetLineWidth(1.0)];
    c.SetStrokeColor(Black);
    c.SetLineWidth(1.0);
    ghost var started := c.ops;
    assert started == old(c.ops) + setup;
    r := DrawBingoCards(c, data, spec, font, pageDraws);
    if r.Fail? {
      AppendStep(old(c.ops), started, c.ops, setup, FailedCardOps(data, spec, 0.0, 0.0));
      return;
    }
    ghost var cards := PageOps(font, data, spec, pageDraws, Count(spec.cardSize));
    AppendStep(old(c.ops), started, c.ops, setup, cards);
    ghost var drawn := c.ops;
    c.ShowPage();
    AppendStep(old(c.ops), drawn, c.ops, setup + cards, [Op.ShowPage]);
  }

  /**
    The page loop of `render_bingo_pdf`: the pages in order, each closed by
    its page break. A failing selection aborts on the first card of the
    first page.
   */
  method DrawPages(c: Canvas, data: BingoData, spec: LayoutSpec, font: FontMetrics,
                   draws: seq<seq<seq<seq<int>>>>) returns (r: Outcome<SelectError>)
    requires DocumentOracleFits(data, spec, draws)
    modifies c
    ensures r.Fail? <==> |draws| > 0 && !Renderable(data, spec)
    ensures r.Pass? ==> c.ops == old(c.ops) + PagesOps(font, data, spec, draws, |draws|)
    ensures r.Fail? ==>
      c.ops == old(c.ops) + ([Op.SetStrokeColor(Black), Op.SetLineWidth(1.0)] + FailedCardOps(data, spec, 0.0, 0.0))
  {
    r := Pass;
    for page := 0 to |draws|
      invariant r.Pass?
      invariant page > 0 ==> Renderable(data, spec)
      invariant c.ops == old(c.ops) + PagesOps(font, data, spec, draws, page)
    {
      ghost var before := c.ops;
      ghost var done := PagesOps(font, data, spec, draws, page);
      r := DrawPage(c, data, spec, font, draws[page]);
      if r.Fail? {
        assert page == 0 && before == old(c.ops);
        return;
      }
      ghost var piece := PageWithBreakOps(font, data, spec, draws[page]);
      assert PagesOps(font, data, spec, draws, page + 1) == done + piece;
      AppendStep(old(c.ops), before, c.ops, done, piece);
    }
  }

  /**
    `render_bingo_pdf`: a canvas for the output path at the page size, then
    `num_pages` pages, each closed by a page break, and one save at the end.
    A failing selection aborts the render on the first card of the first
    page, before any page is closed, and the document is never saved.
   */
  method RenderBingoPdf(numPages: int, data: BingoData, spec: LayoutSpec, font: FontMetrics,
                        outputPath: string, draws: seq<seq<seq<seq<int>>>>) returns (c: Canvas, r: Outcome<SelectError>)
    requires |draws| == Count(numPages)
    requires DocumentOracleFits(data, spec, draws)
    ensures fresh(c)
    ensures c.path == outputPath && c.pageW == spec.pageW && c.pageH == spec.pageH
    ensures r.Fail? <==> Count(numPages) > 0 && !Renderable(data, spec)
    ensures r.Pass? ==> c.ops == DocumentOps(font, data, spec, draws)
    ensures r.Fail? ==>
      c.ops == [Op.SetStrokeColor(Black), Op.SetLineWidth(1.0)] + FailedCardOps(data, spec, 0.0, 0.0)
  {
    c := new Canvas(outputPath, spec.pageW, spec.pageH);
    r := DrawPages(c, data, spec, font, draws);
    if r.Fail? {
      ghost var failed := [Op.SetStrokeColor(Black), Op.SetLineWidth(1.0)] + FailedCardOps(data, spec, 0.0, 0.0);
      EmptyPrefix(failed);
      return;
    }
    ghost var pages := PagesOps(font, data, spec, draws, |draws|);
    EmptyPrefix(pages);
    c.Save();
    assert c.ops == pages + [Op.Save];
  }

  // ---------------------------------------------------------------------------
  // What a page and the document contain
  // ---------------------------------------------------------------------------

  /** Card `(xi, yi)` of a page draws one grid border, and neither a page break nor a save. */
  lemma CardAtContents(font: FontMetrics, data: BingoData, spec: LayoutSpec,
                       pageDraws: seq<seq<seq<int>>>, xi: int, yi: int)
    requires PageOracleFits(data, spec, pageDraws) && Renderable(data, spec)
    requires 0 <= xi < Count(spec.cardSize) && 0 <= yi < Count(spec.cardSize)
    ensures CountOf(CardAt(font, data, spec, pageDraws, xi, yi), IsRect) == 1
    ensures CountOf(CardAt(font, data, spec, pageDraws, xi, yi), IsPageBreak) == 0
    ensures CountOf(CardAt(font, data, spec, pageDraws, xi, yi), IsSave) == 0
  {
    CardContents(ItemAligner(spec, font), data, spec,
                 PickCellItems(data, spec.cellSize, pageDraws[xi][yi]).value,
                 CardOrigin(spec.cardW, xi), CardOrigin(spec.cardH, yi));
  }

  lemma {:induction false} CardColumnContents(font: FontMetrics, data: BingoData, spec: LayoutSpec,
                                              pageDraws: seq<seq<seq<int>>>, xi: int, m: nat)
    requires PageOracleFits(data, spec, pageDraws) && Renderable(data, spec)
    requires 0 <= xi < Count(spec.cardSize) && m <= Count(spec.cardSize)
    ensures CountOf(CardColumnOps(font, data, spec, pageDraws, xi, m), IsRect) == m
    ensures CountOf(CardColumnOps(font, data, spec, pageDraws, xi, m), IsPageBreak) == 0
    ensures CountOf(CardColumnOps(font, data, spec, pageDraws, xi, m), IsSave) == 0
  {
    if m > 0 {
      var prefix := CardColumnOps(font, data, spec, pageDraws, xi, m - 1);
      var card := CardAt(font, data, spec, pageDraws, xi, m - 1);
      CardColumnContents(font, data, spec, pageDraws, xi, m - 1);
      CardAtContents(font, data, spec, pageDraws, xi, m - 1);
      CountAppend(prefix, card, IsRect);
      CountAppend(prefix, card, IsPageBreak);
      CountAppend(prefix, card, IsSave);
    }
  }

  lemma {:induction false} PageOpsContents(font: FontMetrics, data: BingoData, spec: LayoutSpec,
                                           pageDraws: seq<seq<seq<int>>>, n: nat)
    requires PageOracleFits(data, spec, pageDraws) && Renderable(data, spec)
    requires n <= Count(spec.cardSize)
    ensures CountOf(PageOps(font, data, spec, pageDraws, n), IsRect) == n * Count(spec.cardSize)
    ensures CountOf(PageOps(font, data, spec, pageDraws, n), IsPageBreak) == 0
    ensures CountOf(PageOps(font, data, spec, pageDraws, n), IsSave) == 0
  {
    if n > 0 {
      var prefix := PageOps(font, data, spec, pageDraws, n - 1);
      var column := CardColumnOps(font, data, spec, pageDraws, n - 1, Count(spec.cardSize));
      PageOpsContents(font, data, spec, pageDraws, n - 1);
      CardColumnContents(font, data, spec, pageDraws, n - 1, Count(spec.cardSize));
      CountAppend(prefix, column, IsRect);
      CountAppend(prefix, column, IsPageBreak);
      CountAppend(prefix, column, IsSave);
      assert (n - 1) * Count(spec.cardSize) + Count(spec.cardSize) == n * Count(spec.cardSize);
    }
  }

  /** A page draws one grid border per card, `card_size ** 2` of them, and ends with its page break. */
  lemma PageContents(font: FontMetrics, data: BingoData, spec: LayoutSpec, pageDraws: seq<seq<seq<int>>>)
    requires PageOracleFits(data, spec, pageDraws) && Renderable(data, spec)
    ensures CountOf(PageWithBreakOps(font, data, spec, pageDraws), IsRect) == CardsPerPage(spec)
    ensures CountOf(PageWithBreakOps(font, data, spec, pageDraws), IsPageBreak) == 1
    ensures CountOf(PageWithBreakOps(font, data, spec, pageDraws), IsSave) == 0
    ensures PageWithBreakOps(font, data, spec, pageDraws)[|PageWithBreakOps(font, data, spec, pageDraws)| - 1] == Op.ShowPage
  {
    var setup: seq<Op> := [Op.SetStrokeColor(Black), Op.SetLineWidth(1.0)];
    var cards := PageOps(font, data, spec, pageDraws, Count(spec.cardSize));
    var close: seq<Op> := [Op.ShowPage];
    PageOpsContents(font, data, spec, pageDraws, Count(spec.cardSize));
    CountNone(setup, IsRect);
    CountNone(setup, IsPageBreak);
    CountNone(setup, IsSave);
    CountAll(close, IsPageBreak);
    CountNone(close, IsRect);
    CountNone(close, IsSave);
    CountAppend(setup, cards, IsRect);
    CountAppend(setup + cards, close, IsRect);
    CountAppend(setup, cards, IsPageBreak);
    CountAppend(setup + cards, close, IsPageBreak);
    CountAppend(setup, cards, IsSave);
    CountAppend(setup + cards, close, IsSave);
  }

  lemma {:induction false} PagesOpsContents(font: FontMetrics, data: BingoData, spec: LayoutSpec,
                                            draws: seq<seq<seq<seq<int>>>>, p: nat)
    requires DocumentOracleFits(data, spec, draws) && p <= |draws|
    requires p == 0 || Renderable(data, spec)
    ensures CountOf(PagesOps(font, data, spec, draws, p), IsPageBreak) == p
    ensures CountOf(PagesOps(font, data, spec, draws, p), IsRect) == p * CardsPerPage(spec)
    ensures CountOf(PagesOps(font, data, spec, draws, p), IsSave) == 0
  {
    if p > 0 {
      var prefix := PagesOps(font, data, spec, draws, p - 1);
      var page := PageWithBreakOps(font, data, spec, draws[p - 1]);
      PagesOpsContents(font, data, spec, draws, p - 1);
      PageContents(font, data, spec, draws[p - 1]);
      CountAppend(prefix, page, IsPageBreak);
      CountAppend(prefix, page, IsRect);
      CountAppend(prefix, page, IsSave);
      assert (p - 1) * CardsPerPage(spec) + CardsPerPage(spec) == p * CardsPerPage(spec);
    }
  }

  /**
    The document has one page break per page, one grid border per card of
    every page, and exactly one save, which is its last command.
   */
  lemma DocumentContents(font: FontMetrics, data: BingoData, spec: LayoutSpec, draws: seq<seq<seq<seq<int>>>>)
    requires DocumentOracleFits(data, spec, draws)
    requires |draws| == 0 || Renderable(data, spec)
    ensures CountOf(DocumentOps(font, data, spec, draws), IsPageBreak) == |draws|
    ensures CountOf(DocumentOps(font, data, spec, draws), IsRect) == |draws| * CardsPerPage(spec)
    ensures CountOf(DocumentOps(font, data, spec, draws), IsSave) == 1
    ensures DocumentOps(font, data, spec, draws)[|DocumentOps(font, data, spec, draws)| - 1] == Op.Save
  {
    var pages := PagesOps(font, data, spec, draws, |draws|);
    var save: seq<Op> := [Op.Save];
    PagesOpsContents(font, data, spec, draws, |draws|);
    CountAll(save, IsSave);
    CountNone(save, IsPageBreak);
    CountNone(save, IsRect);
    CountAppend(pages, save, IsPageBreak);
    CountAppend(pages, save, IsRect);
    CountAppend(pages, save, IsSave);
  }
}
