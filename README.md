# rpg-cards page layout and card assembly, modelled in Dafny

This project models the core of `js/cards.js` in rpg-cards, a generator of printable role-playing-game cards. It turns a list of card records and an options object into one HTML document. That document is a CSS `@page` style block followed by `<page>` containers, each holding `page_rows * page_columns` cells.

The model covers the whole pipeline:

- **Card data** (`card_data.dfy`, module `CardData`):
  - the card record and the options object;
  - the colour and icon fallback chains (`a || b || c || "black"`), where an absent or empty string falls through;
  - the repeat count `card_count || count || 1`, where a zero count falls through;
  - the content-line parser `split("|").map(trim)`.
- **JavaScript text semantics** (`js_text.dfy`, module `JsText`):
  - truthiness of optional strings and numbers, and how `undefined` prints;
  - `String.prototype.split` on one character and `Array.prototype.join`;
  - `trim` over the ECMAScript whitespace set.
- **Content elements** (`elements.dfy`, module `Elements`):
  - the element templates and the tag registry `card_element_generators`;
  - the dispatch of one content line: a registered generator, the "Unknown element" diagnostic, or `undefined` for an empty tag;
  - the joined contents block.
- **Faces** (`faces.dfy`, module `Faces`): the front, back and blank faces, and `card_repeat` (a loop, proved against `Copies`).
- **Pages** (`pages.dfy`, module `Pages`): the page helpers.
  - Four are loops, each proved against a recursive specification function:
    - `card_pages_split` against `Chunks`;
    - `card_pages_merge` against `Merged`;
    - `cards_pages_flip_left_right` against `MirrorRows`;
    - `card_pages_interleave_cards` against `Interleaved`.
  - `card_pages_add_padding` has no loop. It is the function `AddPadding`, whose contract fixes its result.
- **Document** (`document.dfy`, module `Document`):
  - `card_pages_generate_html`: expanding each card to its copies and the three arrangements (doublesided, front_only, side_by_side);
  - `card_pages_generate_style`;
  - `card_pages_wrap`.

A page cell is a `Cell`: either one face, or the nested array of `page_columns - 2` blank faces that `card_pages_interleave_cards` pushes as a single element. `card_pages_split` counts that array as one cell, but `join` prints all of its faces, joined with ",". A side_by_side page can therefore print more faces than it has slots (`Document.SideBySideOverflow`).

## Model

| member | source | states |
|---|---|---|
| JsText.FirstTruthyIndex | js/cards.js:32 | the chosen alternative of an `\|\|` chain is the first truthy one; every earlier one is absent or empty |
| JsText.FirstTruthy | js/cards.js:32 | an `\|\|` chain ending in a literal yields a non-empty string, or that literal |
| JsText.SplitOn | js/cards.js:48 | `split` on one character yields one part per separator plus one, and no part contains the separator |
| JsText.SplitJoin | js/cards.js:48 | joining the parts of `split` with the separator restores the string |
| JsText.JoinSplit | js/cards.js:48 | splitting a join of separator-free parts gives the parts back |
| JsText.SplitPrefix | js/cards.js:48 | a separator-free prefix becomes the start of the first part |
| JsText.SplitFirstPart | js/cards.js:48 | the first part of a split is a prefix of the string, followed by the separator when it is shorter |
| JsText.LeadingWhitespace | js/cards.js:48 | the leading whitespace run of a string is a whitespace prefix, followed by a non-whitespace character when shorter |
| JsText.TrailingWhitespace | js/cards.js:48 | the trailing whitespace run is a whitespace suffix, preceded by a non-whitespace character when shorter |
| JsText.Trim | js/cards.js:48 | `trim` is empty exactly for an all-whitespace string, otherwise it starts and ends with non-whitespace, and it is never longer |
| JsText.LeadingAfterWhitespace | js/cards.js:48 | whitespace put before a string adds exactly its length to the leading run |
| JsText.TrailingBeforeWhitespace | js/cards.js:48 | whitespace put after a string adds exactly its length to the trailing run |
| JsText.TrimExact | js/cards.js:48 | trimming whitespace + core + whitespace yields the core when the core's ends are not whitespace |
| JsText.TrimIdempotent | js/cards.js:48 | trimming twice equals trimming once |
| CardData.ColorFront | js/cards.js:31-33 | the front colour is `color_front`, else `color`, else `default_color`, else "black"; an empty string counts as absent; never empty |
| CardData.ColorBack | js/cards.js:35-37 | the same precedence with `color_back` first |
| CardData.IconFront | js/cards.js:39-41 | the front icon is `icon_front`, else `icon`, else `default_icon`, else "ace"; never empty |
| CardData.IconBack | js/cards.js:43-45 | the same precedence with `icon_back` first |
| CardData.RepeatCount | js/cards.js:344 | the copy count is `card_count` when non-zero, else the card's `count` when non-zero, else 1; it is never 0 |
| CardData.SplitParams | js/cards.js:47-49 | a content line splits into one part per `\|` plus one |
| CardData.SplitParamsTrimmed | js/cards.js:47-49 | every part is `\|`-free and already trimmed |
| CardData.SplitParamsOfJoin | js/cards.js:47-49 | a line assembled from `\|`-free fields parses to the trimmed fields |
| CardData.SplitParamsOfCleanJoin | js/cards.js:47-49 | fields that are `\|`-free and already trimmed parse back to themselves |
| Elements.RenderLine | js/cards.js:165-175 | a content line renders to `undefined` exactly when the text before its first `\|` is blank |
| Elements.Dispatch | js/cards.js:168-174 | the map callback returns `undefined` exactly for an empty tag name |
| Elements.LowercaseWordClean | js/cards.js:146-157 | a lowercase word has no `\|` and trims to itself |
| Elements.RegisteredTagsAreWords | js/cards.js:146-157 | every registered tag is a lowercase word |
| CardData.PartsOfJoin | js/cards.js:165-167 | for a line made of `\|`-free fields, the tag is the first field trimmed and the parameters are the other fields trimmed, in order |
| Elements.RenderRegistered | js/cards.js:146-175 | any line whose first field trims to a registered tag renders through that tag's generator, with the other fields, trimmed, as parameters |
| Elements.RenderUnregistered | js/cards.js:165-174 | any line whose first field trims to a non-empty unregistered tag renders the "Unknown element" diagnostic of the other fields, trimmed |
| Elements.RenderCleanUnregistered | js/cards.js:165-174 | a line of already trimmed fields with a non-empty unregistered tag renders the diagnostic of exactly those parameters |
| Elements.RenderParts | js/cards.js:165-167 | the tag and the parameters of an assembled line are recovered by the parser |
| Elements.UnknownTagExample | js/cards.js:138-140 | "frobnicate\|x" renders `<div>Unknown element: x</div>` |
| Elements.ContentEntries | js/cards.js:165-175 | the contents map yields one join entry per line, in order, and `undefined` becomes "" |
| Faces.Copies | js/cards.js:181-187 | `count` copies of the value, none when the count is zero or negative |
| Faces.Repeat | js/cards.js:181-187 | the push loop of `card_repeat` yields exactly `Copies(card, count)` |
| Faces.EmptyFaces | js/cards.js:229-237 | `count` copies of the blank white face, none when the count is zero or negative |
| Pages.CeilDivZero | js/cards.js:246 | no items give no pages |
| Pages.Split | js/cards.js:243-251 | the slicing loop yields `Chunks(data, rows*cols)` |
| Pages.ChunksFlatten | js/cards.js:243-251 | the pages concatenate back to the input |
| Pages.ChunksShape | js/cards.js:243-251 | there are ceil(n/k) pages, all of size k except possibly the last, and none is empty |
| Pages.ChunksFull | js/cards.js:243-251 | an input of m*k items gives m pages of exactly k items |
| Pages.Merged | js/cards.js:253-260 | merging yields twice as many pages as there are front pages |
| Pages.MergedAt | js/cards.js:253-260 | front page i is at position 2i and back page i at 2i+1 |
| Pages.Merge | js/cards.js:253-260 | the push loop yields `Merged(front_pages, back_pages)` |
| Pages.Reverse | js/cards.js:262-271 | a reversed row has the row's length |
| Pages.ReverseAt | js/cards.js:262-271 | position k of a reversed row holds element len-1-k |
| Pages.ReverseReverse | js/cards.js:262-271 | reversing twice restores the row |
| Pages.ReversePermutation | js/cards.js:262-271 | reversing a row permutes it |
| Pages.MirrorRows | js/cards.js:262-271 | mirroring every row keeps the page's length |
| Pages.MirrorRowsAt | js/cards.js:266-267 | the cell at row r, column c is the input cell at `r*cols + (cols-1-c)` |
| Pages.MirrorRowsInvolution | js/cards.js:262-271 | flipping a page twice restores it |
| Pages.MirrorRowsPermutation | js/cards.js:262-271 | flipping a page permutes its cells |
| Pages.MirrorRowsSnoc | js/cards.js:262-271 | flipping a page with one more row appends that row reversed |
| Pages.MirrorRowsExample | js/cards.js:262-271 | on a 2x2 page [B0,B1,B2,B3] becomes [B1,B0,B3,B2] |
| Pages.FlipLeftRight | js/cards.js:262-271 | the nested loops yield `MirrorRows(cards, rows, cols)` |
| Pages.CardsPerPage | js/cards.js:274 | cards per page is at least the number of rows and of columns |
| Pages.PaddedLength | js/cards.js:274-280 | topping up by `k - n % k` reaches the next multiple of k |
| Pages.AddPadding | js/cards.js:273-281 | the length rounds up to a multiple of rows*cols; the input is a prefix; fewer than rows*cols blank faces are added; an input already a multiple is returned unchanged |
| Pages.AddPaddingIdempotent | js/cards.js:273-281 | padding twice equals padding once |
| Pages.Interleaved | js/cards.js:283-295 | the result has 3 cells per front card when there are more than 2 columns, otherwise 2 |
| Pages.InterleavedAt | js/cards.js:286-293 | front i, back i and (with more than 2 columns) one filler cell sit at positions 3i, 3i+1 and 3i+2 (2i and 2i+1 otherwise) |
| Pages.FillerCellFaces | js/cards.js:290-292 | the filler cell holds `page_columns - 2` blank faces |
| Pages.InterleaveCards | js/cards.js:283-295 | the while loop yields `Interleaved(front_cards, back_cards, options)` |
| Document.Expanded | js/cards.js:343-349 | each side holds the sum of the cards' non-negative repeat counts as faces |
| Document.ExpandedLast | js/cards.js:347-348 | each copy of the last card is that card's face |
| Document.ExpandedPrefix | js/cards.js:343-349 | the faces of the first cards start the faces of all cards |
| Document.ExpandCards | js/cards.js:341-349 | the `forEach` yields the expanded fronts and backs |
| Document.SideBySideOverflow | js/cards.js:283-295 | side_by_side on a 1x4 grid with two cards: the first page is [front 0, back 0, fillers, front 1] and prints 5 faces on 4 slots; the second card's back starts the next page |
| Document.SideBySideStraddle | js/cards.js:283-295 | side_by_side on a 1x4 grid with three cards: the second page is [back 1, fillers, front 2, back 2], so the third card's front and back stay together and only its filler starts the third page |
| Document.Paged | js/cards.js:369-370 | padding then splitting n cells gives ceil(n/(rows*cols)) pages of exactly rows*cols cells |
| Document.FlipPages | js/cards.js:362-364 | every back page is mirrored, and the page count is kept |
| Document.ArrangeDoublesided | js/cards.js:352-367 | 2*ceil(n/(rows*cols)) full pages; padded front page i at 2i and the mirrored back page i at 2i+1 |
| Document.ArrangePages | js/cards.js:336-375 | doublesided alternates fronts and mirrored backs; front_only gives the padded fronts with the cards first, in order, then only blank faces; side_by_side gives the padded interleaving; every page is full; any other arrangement, or no faces, gives no pages |
| Document.PageSizeCss | js/cards.js:314-322 | A3, A4, A5, Letter and 25x35 map to their CSS sizes and anything else, absent included, to "auto" |
| Document.BackgroundStyle | js/cards.js:302-304 | a page has a background style exactly when it is an odd page of a doublesided document |
| Document.WrappedPrefix | js/cards.js:297-311 | the markup of the first pages is a prefix of the markup of all pages |
| Document.Wrap | js/cards.js:297-311 | the loop yields `Wrapped(pages, options)` |
| Document.GenerateHtml | js/cards.js:335-383 | the document starts with the style block; with no faces, or an unknown arrangement, it is the style block alone; absent options mean the defaults |

## Left out

- `card_pages_insert_into` and everything else that touches the DOM are outside the core and not modelled. The same holds for the UI scripts.
- `card_default_data` is not modelled: nothing in the core calls it.
- NaN or fractional counts, rows and columns are not modelled: counts are whole numbers (`int`).
- Document.ArrangePages, Document.GenerateHtml: model only positive `page_rows` and `page_columns`, and require them. With 0, the source splits by 3 but computes `cards.length % 0` (NaN) in `card_pages_add_padding`.
- Pages.FlipLeftRight: requires `|cards| == rows * cols`. Every page it receives in the source is full after padding; a short page would push `undefined`.
- Pages.Merge, Pages.InterleaveCards: require at least as many back items as front items. In the source the two lists always have equal length; shorter back lists would push `undefined`.
- Elements.Dispatch, Elements.RenderLine, Elements.RenderUnregistered, Elements.RenderCleanUnregistered: tags naming members inherited from `Object.prototype` are not modelled. The model renders all of them as unknown elements. In the source the registry lookup returns the inherited member, and js/cards.js:172 calls it as a plain function, so `this` is undefined.
  - `"__proto__"` yields `Object.prototype`, which is not callable: a TypeError.
  - `"__defineGetter__"`, `"__defineSetter__"`, `"__lookupGetter__"`, `"__lookupSetter__"`, `"valueOf"`, `"hasOwnProperty"`, `"isPrototypeOf"` and `"propertyIsEnumerable"` start by converting `this` to an object, so they throw a TypeError.
  - `"toLocaleString"` throws too, because it calls `toString` on undefined.
  - Each of these errors aborts `card_pages_generate_html`.
  - `"constructor"` returns the parameter array, which `join` prints comma-joined.
  - `"toString"` returns "[object Undefined]".
- The HTML templates are written out as string functions without contracts. Only their choice points carry contracts: the colours, the icons, the page style and the dispatch.
- Document.GenerateHtml: does not state the exact document for known arrangements with cards. Its pieces do: `ArrangePages` gives the pages and `Wrap` gives the markup.

The source behaves as follows in these cases, and the model does the same:

- An unknown tag's diagnostic lists only the parameters, never the tag. "frobnicate|x" shows "Unknown element: x" (`Elements.UnknownTagExample`).
- `property`, `description`, `text` and `bullet` concatenate a missing parameter directly, so it prints as "undefined". `subtitle`, `section` and `fill` read it under `||` and fall back to "" or "1".
- A `count` or `card_count` of 0 is falsy, so it falls through to the next alternative: ultimately one copy, not zero (`CardData.RepeatCount`). A negative count is truthy and gives zero copies (`Faces.Copies`).
- In side_by_side, the nested filler array fills one of the `page_rows * page_columns` cells but prints `page_columns - 2` faces. With more than 3 columns a page can print more faces than it has slots. When a page boundary falls between a card's front cell and its back cell, the back lands on the next page (`Document.SideBySideOverflow`). When it falls between the back cell and the filler cell, front and back stay together and only the filler moves on to the next page (`Document.SideBySideStraddle`).
