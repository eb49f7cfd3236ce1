# bingo-maker, modelled in Dafny

bingo-maker turns a title and a list of items into a PDF of bingo cards.
Each page holds `card_size × card_size` cards. Each card has a title, a
`cell_size × cell_size` grid, and one randomly chosen item per cell. An item
may be broken over several lines with `/` or `\`. A small desktop form
collects the settings: text entries, numeric spinboxes and a yes/no
selector, each with its own keystroke validation. The item list is loaded
from a text file and cleaned before use.

This project models the layout engine and those validation and cleaning
rules. It proves what they guarantee.

- `models.dfy` (module `Models`): the bingo content and its cell-item
  selection. The random source is an explicit oracle of drawn pool
  positions, pairwise distinct when the draw is without replacement.
  Also the layout specification, whose derived card, margin, grid and cell
  sizes satisfy the tiling relations.
- `text_layout.dfy` (module `TextLayout`): the text block aligner. It
  places the baselines of a multi-line item, vertically centred in its
  cell. Also the split of an item into lines at runs of `/` and `\`.
- `drawing.dfy` (module `Drawing`): the PDF canvas as a class holding a log
  of drawing commands, and the drawing of one card. Every drawing method
  is proved to append exactly the commands of a specification function.
  Lemmas state what those commands are: how many lines and rectangles
  there are, where the grid lines run, and which item goes in which cell.
- `rendering.dfy` (module `Rendering`): the cards of a page, the pages of
  the document, the page breaks and the final save, with the same kind of
  proofs.
- `widgets.dfy` (module `Widgets`): covers these widget rules.
  - The validity flag every input widget carries, and its change-only
    `<<ValidityChanged>>` event.
  - The text entry's keystroke rule.
  - The spinbox's integer-mode choice, its keystroke decision table and its
    arrow-click rule.
  - The forced selection of the yes/no selector when an option is disabled.
- `item_cleaning.dfy` (module `ItemCleaning`): the cleaning of the loaded
  item list. Each line is stripped; blank lines and `#` comment lines are
  dropped; duplicates are merged; the result is sorted.
- `paths.dfy` (module `Paths`): the `.pdf` suffix normalisation of the
  output path.
- `wrappers.dfy` (module `Wrappers`): `Option`, `Result` and `Outcome`. A
  Python exception becomes a failure value:
  - `ZeroDivisionError` for a zero card or cell count;
  - `IndexError` for a selection from an empty pool.

A single-line item's baseline follows the code at
`bingo_maker/pdf/renderer.py:23-24`. The code puts it at
`center_y - (ascent - descent) / 2`, which is
`ComputeLineYPositions`'s last postcondition, and the model follows the
code. With this formula the block from the top of the line to the bottom
of its descender is centred on `center_y`.

When the spinbox is in decimal mode, an input that Python's `float()`
reads as not-a-number compares false against both bounds. Such an input
is therefore accepted and makes the widget valid. The model keeps this
behaviour of the code; it is stated by `Widgets.NaNInput`.

## Model

| member | source | states |
|---|---|---|
| Models.PickCellItems | bingo_maker/pdf/models.py:11-17 | Selection fails exactly when cells are needed and the pool is empty. Otherwise it returns `cell_size²` items, each one an element of the pool; item `k` is the pool entry at the `k`-th drawn position. |
| Models.SampleHasNoRepeats | bingo_maker/pdf/models.py:15-17 | With duplicates disallowed and a pool of at least `cell_size²` items, selection succeeds. A pool without repeats then gives cells without repeats. |
| Models.SmallPoolFallsBack | bingo_maker/pdf/models.py:14-17 | A non-empty pool smaller than `cell_size²`, with duplicates disallowed, falls back to drawing with replacement and still yields `cell_size²` items. |
| Models.NewLayoutSpec | bingo_maker/pdf/models.py:40-50 | Fails exactly when the card or cell count is 0. Otherwise the inputs are kept and the derived fields satisfy every relation below. Cards tile the page. Margins are the given fraction of a card. The grid is the card less two margins and, vertically, the 1.4-title-size strip. Cells tile the grid. |
| Models.DerivedFieldsUnique | bingo_maker/pdf/models.py:40-50 | The geometry relations fix every derived field uniquely. |
| Models.GridWidthPositive | bingo_maker/pdf/models.py:43-45 | `grid_w = card_w·(1 − 2·margin_ratio)`. For a positive card width, the grid width is positive exactly when `margin_ratio < 1/2`. |
| Models.CardsTilePage | bingo_maker/pdf/renderer.py:49-53 | For positive page sizes, card `(xi, yi)` at `(card_w·xi, card_h·yi)` lies inside the page. Each card ends where the next begins, and the last row and column end on the page edge. |
| TextLayout.NewTextBlockAligner | bingo_maker/pdf/renderer.py:13-18 | The leading is the font size times the leading factor. Ascent and descent are the font-unit metrics scaled to the font size. The descent is a non-negative distance whatever the sign of the metric. |
| TextLayout.ComputeLineYPositions | bingo_maker/pdf/renderer.py:20-26 | Yields `max(n, 0)` baselines, consecutive ones exactly one leading apart. The block from the first line's top to the last line's bottom is centred on `center_y`. A single line sits at `center_y − (ascent − descent)/2`. |
| TextLayout.BaselineStep | bingo_maker/pdf/renderer.py:24-26 | Consecutive baselines are exactly one leading apart. |
| TextLayout.BlockCentred | bingo_maker/pdf/renderer.py:23-26 | For any line count, (first baseline + ascent) + (last baseline − descent) = 2·`center_y`. |
| TextLayout.SplitLines | bingo_maker/pdf/renderer.py:101 | `re.split(r'[\\/]+', item)` always yields at least one piece, one more than the number of maximal marker runs. No piece holds a marker, and the pieces between runs are non-empty. The pieces concatenate to the item without its markers. |
| TextLayout.SplitJoin | bingo_maker/pdf/renderer.py:101 | Splitting undoes joining with `/`, for every list of lines the split can produce. |
| TextLayout.SplitLeadingRun | bingo_maker/pdf/renderer.py:101 | A run of one or more markers at the front of an item, however long, cuts off exactly one empty line, and the split goes on with what follows the run. |
| TextLayout.SplitAfterRun | bingo_maker/pdf/renderer.py:101 | A run of one or more markers after a marker-free word, however long, ends that word's line, and the split goes on with what follows the run. So the cuts fall exactly at the marker runs. |
| TextLayout.SplitThreeWords | bingo_maker/pdf/renderer.py:101 | Three marker-free words separated by two marker runs of any length split into exactly those three lines, provided the middle word is non-empty. Both `apple/banana\cherry` and `apple//banana\/cherry` give three names. |
| Drawing.DrawGridLines | bingo_maker/pdf/renderer.py:78-92 | Appends the `cell_size + 1` pairs of grid lines: vertical line `i` then horizontal line `i`. |
| Drawing.DrawCellText | bingo_maker/pdf/renderer.py:101-104 | Appends one centred string per line of the item, each at the baseline the aligner gives it. |
| Drawing.DrawColumn | bingo_maker/pdf/renderer.py:96-104 | Appends the text of the cells of column `xi`, cell `(xi, yi)` showing item `xi·cell_size + yi`. |
| Drawing.DrawCells | bingo_maker/pdf/renderer.py:96-104 | Appends the text of every cell, column by column. |
| Drawing.DrawBingoCard | bingo_maker/pdf/renderer.py:56-104 | Appends the title, the item-font switch, the grid border, the grid lines, and then the text of every cell. It fails exactly when the pool is empty, after the grid has been drawn and before any cell text. |
| Drawing.GridIndexBounds | bingo_maker/pdf/renderer.py:101 | The index `xi·cell_size + yi` of a cell lies in `[0, cell_size²)`. |
| Drawing.GridIndexBijection | bingo_maker/pdf/renderer.py:96-101 | The map from cell `(xi, yi)` to `xi·n + yi` is a bijection onto `[0, n²)`, inverted by division and remainder. |
| Drawing.CardContents | bingo_maker/pdf/renderer.py:63-104 | Whatever the items, a card draws one rectangle, `2·(cell_size + 1)` lines, no page break and no save. |
| Drawing.GridLinesMeetBorder | bingo_maker/pdf/renderer.py:71-92 | With consistent geometry and at least one cell, the first and last vertical and horizontal lines run along the edges of the grid border. The last ones are at `margin + cell_size·cell = margin + grid`. |
| Drawing.CellCentredBetweenLines | bingo_maker/pdf/renderer.py:79-99 | The text centre of cell `(xi, yi)` lies midway between grid lines `xi` and `xi + 1`, and between lines `yi` and `yi + 1`. |
| Drawing.TitleAboveGrid | bingo_maker/pdf/renderer.py:64-77 | The title baseline is `0.4` title font sizes above the top of the grid. |
| Rendering.DrawCardAt | bingo_maker/pdf/renderer.py:50-53 | Draws card `(xi, yi)` at `(card_w·xi, card_h·yi)` with that card's own draws. |
| Rendering.DrawCardColumn | bingo_maker/pdf/renderer.py:51-53 | Draws the cards of one column in order. It stops at the first card when the pool is empty. |
| Rendering.DrawBingoCards | bingo_maker/pdf/renderer.py:46-53 | Draws the `card_size²` cards of a page, column by column. It fails exactly when the page has cards and the pool is empty, leaving only the first card's frame and grid drawn. |
| Rendering.DrawPage | bingo_maker/pdf/renderer.py:38-41 | One page: stroke colour and line width, then the cards, then one page break. |
| Rendering.DrawPages | bingo_maker/pdf/renderer.py:37-41 | Draws the pages in order, each closed by its page break. It fails exactly when there are pages and the pool is empty, and then stops on the first card of the first page. |
| Rendering.RenderBingoPdf | bingo_maker/pdf/renderer.py:29-43 | Creates a canvas for the output path at the page size, draws `max(num_pages, 0)` pages and then saves. A failed selection aborts on the first card of the first page, before any page break or save. |
| Rendering.CardAtContents | bingo_maker/pdf/renderer.py:50-53 | Each card placed on a page draws exactly one grid border, no page break and no save. |
| Rendering.PageContents | bingo_maker/pdf/renderer.py:37-53 | A page draws `card_size²` grid borders, one per card, then exactly one page break as its last command, and no save. |
| Rendering.DocumentContents | bingo_maker/pdf/renderer.py:35-43 | The document has one page break per page and one grid border per card of every page. It has exactly one save, and that save is its last command. |
| Widgets.ValidatableFrame.constructor | bingo_maker/ui/widgets.py:25-27 | The flag starts false, no event has been raised, and the recorded history is the single initial `false`. |
| Widgets.ValidatableFrame.SetValidity | bingo_maker/ui/widgets.py:29-32 | The flag takes the new value, and an event is raised exactly when the value changes. Setting the same value again raises nothing. One event per change of the recorded history is kept as an invariant. |
| Widgets.ChangesBound | bingo_maker/ui/widgets.py:29-32 | A history of `n` flag values changes at most `n − 1` times. Since the history holds the initial value plus one value per setting, `n` settings raise at most `n` events. |
| Widgets.ConstantHistoryNoChanges | bingo_maker/ui/widgets.py:29-32 | Setting the same validity over and over raises no event. |
| Widgets.LabelEntry.constructor | bingo_maker/ui/widgets.py:59-63 | The default text is validated like a keystroke. The entry is valid exactly when the default is non-empty, and the message is then empty; otherwise it is 'empty'. Exactly one event has been raised if the entry starts valid, and none otherwise. |
| Widgets.LabelEntry.Validate | bingo_maker/ui/widgets.py:82-89 | Always accepts the keystroke. Validity becomes "input is non-empty", and the message is empty exactly when the entry is valid. |
| Widgets.InitialValue | bingo_maker/ui/widgets.py:117-121 | The spinbox variable starts at exactly the default in both modes, because integer mode requires an integral default. |
| Widgets.TruncExact | bingo_maker/ui/widgets.py:118 | `int(x)` equals `x` exactly when `x` is integral. |
| Widgets.LabelSpinbox.constructor | bingo_maker/ui/widgets.py:113-123 | Integer mode holds exactly when the default, both bounds and the step are integral. The variable holds the default. The widget is valid exactly when the default is within the bounds, and the message is the one the number check gives for the default. Exactly one event has been raised if the widget starts valid, and none otherwise. |
| Widgets.NumberDecision | bingo_maker/ui/widgets.py:166-194 | A non-integer in integer mode is rejected, with validity untouched and the 'not_integer' message. Any other number is accepted and is valid exactly when it is neither below `from_` nor above `to`. Below gives 'too_small', checked first; above gives 'too_big'. The message is empty exactly when the widget is valid. |
| Widgets.InputDecision | bingo_maker/ui/widgets.py:146-194 | Empty input is accepted, becomes invalid and shows 'empty'. Input that does not parse is rejected with the mode's message and validity untouched. The keystroke is accepted exactly when it is empty, or parses and suits the mode. |
| Widgets.FiniteInputInRange | bingo_maker/ui/widgets.py:176-194 | A finite input that suits the mode is accepted, and is valid exactly when `from_ ≤ v ≤ to`. |
| Widgets.TooSmallReportedFirst | bingo_maker/ui/widgets.py:176-190 | With inverted bounds, 'too_small' is reported before 'too_big'. |
| Widgets.NaNInput | bingo_maker/ui/widgets.py:166-194 | Not-a-number is rejected in integer mode. In decimal mode it is accepted as valid. |
| Widgets.InfinityInput | bingo_maker/ui/widgets.py:176-190 | The infinities are out of range, reported as 'too_small' or 'too_big' by their sign. |
| Widgets.LabelSpinbox.ValidateOnInput | bingo_maker/ui/widgets.py:146-194 | The keystroke verdict, the message and the validity are those of `InputDecision`. An event is raised exactly when the validity changes, so none is raised when the decision leaves validity alone. |
| Widgets.LabelSpinbox.ValidateNumber | bingo_maker/ui/widgets.py:166-194 | The keystroke verdict, the message and the validity are those of `NumberDecision`. An event is raised exactly when the validity changes. |
| Widgets.LabelSpinbox.ValidateOnClick | bingo_maker/ui/widgets.py:196-199 | The message is cleared exactly when the current value is within `[from_, to]`. Validity is never touched. |
| Widgets.BooleanSelector.constructor | bingo_maker/ui/widgets.py:257-260 | The selector starts valid, holding the default, with no option disabled. Making it valid has raised exactly one event. |
| Widgets.BooleanSelector.EnableOption | bingo_maker/ui/widgets.py:288-289 | Re-enables the option and keeps the selection. |
| Widgets.BooleanSelector.DisableOption | bingo_maker/ui/widgets.py:291-293 | Disables the option and forces the value. `'false'` forces True and `'true'` forces False, so the selected button is never the disabled one. |
| ItemCleaning.Strip | bingo_maker/ui/widgets.py:346 | The result neither starts nor ends with whitespace, and everything removed at either end is whitespace. |
| ItemCleaning.StripIdempotent | bingo_maker/ui/widgets.py:346 | Stripping twice is stripping once. |
| ItemCleaning.StrLessTotal | bingo_maker/ui/widgets.py:347 | Python's string order is total on distinct strings. |
| ItemCleaning.StrLessTransitive | bingo_maker/ui/widgets.py:347 | Python's string order is transitive. |
| ItemCleaning.Insert | bingo_maker/ui/widgets.py:347-349 | Inserting into a strictly sorted list keeps it strictly sorted and adds exactly the new item to its elements. |
| ItemCleaning.SortKept | bingo_maker/ui/widgets.py:347-349 | The result is strictly sorted and its elements are exactly the kept items. |
| ItemCleaning.CleanItems | bingo_maker/ui/widgets.py:344-349 | The cleaned list is strictly sorted, hence duplicate-free. Its elements are exactly the stripped lines that are neither blank nor `#` comments. Every entry equals its own strip. |
| ItemCleaning.LineListed | bingo_maker/ui/widgets.py:346-349 | A line's stripped text is listed exactly when it is neither blank nor a comment. |
| ItemCleaning.SortedListingUnique | bingo_maker/ui/widgets.py:347-349 | Two strictly sorted lists with the same elements are equal, so the cleaned list is the one `sorted` gives for the cleaned set. |
| Paths.WithSuffix | bingo_maker/utils.py:23-24 | The result always ends with the suffix and starts with the path. A path already ending with the suffix is unchanged; any other gets exactly the suffix appended. |
| Paths.WithSuffixIdempotent | bingo_maker/utils.py:23-24 | Normalising twice is normalising once. |

## Left out

- Font registration and metric lookup (`bingo_maker/pdf/fonts.py`, `pdfmetrics.getAscent` and `getDescent`). The item font's ascent and descent are inputs in font units.
- reportlab's canvas internals and PDF encoding. The canvas is a log of the calls made on it, and black is the only stroke colour.
- The random generator and its distribution. Each card receives its drawn pool positions as an input, and the model states only what holds for every such draw.
- IEEE floating point. All geometry is over exact reals, so the equalities proved hold only approximately in the program. Python's `int` `1` line width is the real `1.0`.
- `utils.is_number` and `float()`. Parsing is a parameter returning a finite number, not-a-number, an infinity, or nothing where Python raises `ValueError`.
- The spinbox default, bounds and step are finite reals. The constructor validates the default through the number check directly, because `str(default)` always parses back to the default.
- Error message texts. Messages are modelled by kind, with the bound they quote, not as the Japanese display strings with formatted numbers.
- Tk itself. Not modelled:
  - the entry text changing on an accepted keystroke;
  - `get()`;
  - labels and layout;
  - event delivery; only the number of raised events is modelled;
  - the conversion of the spinbox text when `_validate_on_click` reads the variable; the current value is an input.
- Widget `enable` and `disable`, and `LabelCombobox`. These are state toggles with no rule to state.
- `BingoItemFileLoader`'s file dialog, file reading, encoding, status message and event. The cleaning takes the list of lines read from the file.
- `resolve_output_path`'s base directory (`sys.frozen` and the module path) and `mkdir`, and `resolve_resource_path`. These are environment and filesystem effects.
- `bingo_maker/ui/view.py` and `bingo_maker/app.py`, the window assembly and main loop. They are not part of this model.
