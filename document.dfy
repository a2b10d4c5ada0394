/** The whole document: expanding cards to their copies, arranging the faces
    into pages for the chosen print arrangement, the page-size style block and
    the page wrappers (js/cards.js, `card_pages_generate_html` and the
    functions it calls last). */
module Document {
  import opened JsText
  import opened CardData
  import opened Faces
  import opened Pages

  // ---------------------------------------------------------------------------
  // Expanding each card to its copies
  // ---------------------------------------------------------------------------

  datatype Side = Front | Back

  function FaceOf(card: Card, options: Options, side: Side): string {
    match side
    case Front => GenerateFront(card, options)
    case Back => GenerateBack(card, options)
  }

  /** Number of copies card `card` contributes: its repeat count, or none when negative. */
  function CopiesOf(card: Card, options: Options): nat {
    var n := RepeatCount(card, options);
    if n < 0 then 0 else n
  }

  /** Total number of faces on one side of the deck. */
  function TotalCount(cards: seq<Card>, options: Options): nat {
    if cards == [] then 0
    else TotalCount(cards[..|cards| - 1], options) + CopiesOf(cards[|cards| - 1], options)
  }

  /** The faces of one side, card after card, each repeated its count of times. */
  function Expanded(cards: seq<Card>, options: Options, side: Side): (faces: seq<Cell>)
    ensures |faces| == TotalCount(cards, options)
  {
    if cards == [] then []
    else
      var last := cards[|cards| - 1];
      Expanded(cards[..|cards| - 1], options, side)
      + Copies(Face(FaceOf(last, options, side)), RepeatCount(last, options))
  }

  /** Copy j of the last card is the face of that card. */
  lemma ExpandedLast(cards: seq<Card>, options: Options, side: Side, j: nat)
    requires cards != [] && j < CopiesOf(cards[|cards| - 1], options)
    ensures TotalCount(cards[..|cards| - 1], options) + j < |Expanded(cards, options, side)|
    ensures Expanded(cards, options, side)[TotalCount(cards[..|cards| - 1], options) + j]
            == Face(FaceOf(cards[|cards| - 1], options, side))
  {
  }

  /** The faces of a prefix of the deck start the faces of the whole deck. */
  lemma {:induction false} ExpandedPrefix(cards: seq<Card>, options: Options, side: Side, k: nat)
    requires k <= |cards|
    ensures Expanded(cards[..k], options, side) <= Expanded(cards, options, side)
    decreases |cards|
  {
    if k < |cards| {
      var init := cards[..|cards| - 1];
      assert cards[..k] == init[..k];
      ExpandedPrefix(init, options, side, k);
    } else {
      assert cards[..k] == cards;
    }
  }

  // ---------------------------------------------------------------------------
  // Arranging pages
  // ---------------------------------------------------------------------------

  /** Padded cells cut into pages: ceil(n / (rows*cols)) pages of exactly
      rows*cols cells each. */
  function Paged(cells: seq<Cell>, options: Options): (pages: seq<seq<Cell>>)
    requires options.pageRows > 0 && options.pageColumns > 0
    ensures |pages| == CeilDiv(|cells|, CardsPerPage(options))
    ensures forall j :: 0 <= j < |pages| ==> |pages[j]| == CardsPerPage(options)
  {
    var k := CardsPerPage(options);
    ChunksFull(AddPadding(cells, options), k, CeilDiv(|cells|, k));
    Chunks(AddPadding(cells, options), k)
  }

  /** Number of face containers a cell prints once the page is joined. */
  function FaceCount(cell: Cell): nat {
    match cell
    case Face(_) => 1
    case Fillers(faces) => |faces|
  }

  /** Number of face containers a page prints. */
  function PageFaceCount(page: seq<Cell>): nat {
    if page == [] then 0 else PageFaceCount(page[..|page| - 1]) + FaceCount(page[|page| - 1])
  }

  /** side_by_side on a 1 x 4 grid with two cards: the filler array counts as
      one cell when the page is cut, but prints two blank faces, so the first
      page prints five faces on four slots and the second card's back moves to
      the next page. */
  lemma SideBySideOverflow(options: Options, f0: string, b0: string, f1: string, b1: string)
    requires options.pageRows == 1 && options.pageColumns == 4
    ensures var pages := Paged(Interleaved([Face(f0), Face(f1)], [Face(b0), Face(b1)], options), options);
      |pages| == 2
      && pages[0] == [Face(f0), Face(b0), FillerCell(options), Face(f1)]
      && PageFaceCount(pages[0]) == CardsPerPage(options) + 1
      && pages[1][0] == Face(b1)
  {
    var fronts := [Face(f0), Face(f1)];
    var backs := [Face(b0), Face(b1)];
    var cells := Interleaved(fronts, backs, options);
    InterleavedAt(fronts, backs, options, 0);
    InterleavedAt(fronts, backs, options, 1);
    assert |cells| == 6;
    assert CardsPerPage(options) == 4;
    assert CeilDiv(6, 4) == 2 by {
      DivModUnique(9, 4, 2, 1);
    }
    var padded := AddPadding(cells, options);
    assert |padded| == 8;
    assert padded[..4] == cells[..4] && padded[4] == cells[4];
    assert Chunks(padded, 4) == [padded[..4]] + Chunks(padded[4..], 4);
    assert Chunks(padded[4..], 4) == [padded[4..]];
    assert cells[..4] == [Face(f0), Face(b0), FillerCell(options), Face(f1)];
    FillerCellFaces(options);
    var page := cells[..4];
    assert |FillerCell(options).faces| == 2;
    assert PageFaceCount(page) == 5 by {
      var p1, p2, p3 := page[..1], page[..2], page[..3];
      assert p1[..0] == [] && p2[..1] == p1 && p3[..2] == p2 && page[..3] == p3;
      assert PageFaceCount(p1) == 1;
      assert PageFaceCount(p2) == 2;
      assert PageFaceCount(p3) == 4;
    }
  }

  /** side_by_side on a 1 x 4 grid with three cards: the page boundary after
      cell 8 falls between the third card's back and its filler, so that card's
      front and back stay on the second page and only its filler opens the third. */
  lemma SideBySideStraddle(options: Options, f0: string, b0: string, f1: string, b1: string,
                           f2: string, b2: string)
    requires options.pageRows == 1 && options.pageColumns == 4
    ensures var pages := Paged(Interleaved([Face(f0), Face(f1), Face(f2)], [Face(b0), Face(b1), Face(b2)], options), options);
      |pages| == 3
      && pages[1] == [Face(b1), FillerCell(options), Face(f2), Face(b2)]
      && pages[2][0] == FillerCell(options)
  {
    var fronts := [Face(f0), Face(f1), Face(f2)];
    var backs := [Face(b0), Face(b1), Face(b2)];
    var cells := Interleaved(fronts, backs, options);
    InterleavedAt(fronts, backs, options, 1);
    InterleavedAt(fronts, backs, options, 2);
    assert |cells| == 9;
    assert CardsPerPage(options) == 4;
    assert CeilDiv(9, 4) == 3 by {
      DivModUnique(12, 4, 3, 0);
    }
    var padded := AddPadding(cells, options);
    assert |padded| == 12;
    assert padded[4..8] == cells[4..8] && padded[8] == cells[8];
    assert Chunks(padded, 4) == [padded[..4]] + Chunks(padded[4..], 4);
    var rest := padded[4..];
    assert rest[..4] == padded[4..8] && rest[4..] == padded[8..];
    assert Chunks(rest, 4) == [rest[..4]] + Chunks(rest[4..], 4);
    assert Chunks(padded[8..], 4) == [padded[8..]];
    assert cells[4..8] == [Face(b1), FillerCell(options), Face(f2), Face(b2)];
  }

  /** The pages of one side of the deck. */
  function SidePages(cards: seq<Card>, options: Options, side: Side): seq<seq<Cell>>
    requires options.pageRows > 0 && options.pageColumns > 0
  {
    Paged(Expanded(cards, options, side), options)
  }

  /** The `forEach` over the cards: the front and the back of each card,
      repeated its count of times, appended card after card. */
  method ExpandCards(cards: seq<Card>, options: Options) returns (frontCards: seq<Cell>, backCards: seq<Cell>)
    ensures frontCards == Expanded(cards, options, Front)
    ensures backCards == Expanded(cards, options, Back)
  {
    frontCards := [];
    backCards := [];
    for k := 0 to |cards|
      invariant frontCards == Expanded(cards[..k], options, Front)
      invariant backCards == Expanded(cards[..k], options, Back)
    {
      var data := cards[k];
      var count := RepeatCount(data, options);
      var front := GenerateFront(data, options);
      var back := GenerateBack(data, options);
      var frontCopies := Repeat(Face(front), count);
      var backCopies := Repeat(Face(back), count);
      frontCards := frontCards + frontCopies;
      backCards := backCards + backCopies;
      assert cards[..k + 1][..k] == cards[..k];
    }
    assert cards[..|cards|] == cards;
  }

  /** `back_pages.map(...)`: every back page flipped left to right. */
  method FlipPages(backPages: seq<seq<Cell>>, rows: nat, cols: nat) returns (flipped: seq<seq<Cell>>)
    requires forall j :: 0 <= j < |backPages| ==> |backPages[j]| == rows * cols
    ensures |flipped| == |backPages|
    ensures forall j :: 0 <= j < |backPages| ==> flipped[j] == MirrorRows(backPages[j], rows, cols)
  {
    flipped := [];
    for j := 0 to |backPages|
      invariant |flipped| == j
      invariant forall t :: 0 <= t < j ==> flipped[t] == MirrorRows(backPages[t], rows, cols)
    {
      var page := FlipLeftRight(backPages[j], rows, cols);
      flipped := flipped + [page];
    }
  }

  /** The doublesided branch: both sides padded and cut, the back pages
      mirrored, then front and back pages alternated. */
  method ArrangeDoublesided(frontCards: seq<Cell>, backCards: seq<Cell>, rows: int, cols: int, options: Options)
    returns (pages: seq<seq<Cell>>)
    requires options.pageRows > 0 && options.pageColumns > 0
    requires rows == options.pageRows && cols == options.pageColumns
    requires |frontCards| == |backCards|
    ensures |pages| == 2 * CeilDiv(|frontCards|, CardsPerPage(options))
    ensures forall j :: 0 <= j < |pages| ==> |pages[j]| == CardsPerPage(options)
    ensures forall i :: 0 <= i < |Paged(frontCards, options)| ==>
      pages[2 * i] == Paged(frontCards, options)[i]
      && pages[2 * i + 1] == MirrorRows(Paged(backCards, options)[i], rows, cols)
  {
    var k := CardsPerPage(options);
    var paddedFronts := AddPadding(frontCards, options);
    var paddedBacks := AddPadding(backCards, options);
    var frontPages := Split(paddedFronts, rows, cols);
    var backPages := Split(paddedBacks, rows, cols);
    assert frontPages == Paged(frontCards, options);
    assert backPages == Paged(backCards, options);
    var flipped := FlipPages(backPages, rows, cols);
    pages := Merge(frontPages, flipped);
    forall i | 0 <= i < |frontPages|
      ensures pages[2 * i] == frontPages[i] && pages[2 * i + 1] == flipped[i]
    {
      MergedAt(frontPages, flipped, i);
    }
    forall j | 0 <= j < |pages| ensures |pages[j]| == k {
      var i := j / 2;
      assert j == 2 * i || j == 2 * i + 1;
      MergedAt(frontPages, flipped, i);
    }
  }

  /** Pages for the chosen arrangement (`card_pages_generate_html` up to the
      wrapping). Every page holds exactly `page_rows * page_columns` cells.
      - doublesided: front page i at position 2i, and at 2i+1 back page i with
        every row mirrored; ceil(N / (rows*cols)) pages of each side.
      - front_only: the padded fronts cut into ceil(N / (rows*cols)) pages, the
        fronts themselves leading them in order.
      - side_by_side: the interleaved fronts and backs, padded and cut.
      - any other arrangement: no pages. */
  method ArrangePages(cards: seq<Card>, options: Options) returns (pages: seq<seq<Cell>>)
    requires options.pageRows > 0 && options.pageColumns > 0
    ensures forall j :: 0 <= j < |pages| ==> |pages[j]| == CardsPerPage(options)
    ensures options.cardArrangement == Some("doublesided") ==>
      |pages| == 2 * CeilDiv(TotalCount(cards, options), CardsPerPage(options))
      && forall i :: 0 <= i < |SidePages(cards, options, Front)| ==>
           pages[2 * i] == SidePages(cards, options, Front)[i]
           && pages[2 * i + 1] == MirrorRows(SidePages(cards, options, Back)[i], options.pageRows, options.pageColumns)
    ensures options.cardArrangement == Some("front_only") ==>
      pages == SidePages(cards, options, Front)
      && |pages| == CeilDiv(TotalCount(cards, options), CardsPerPage(options))
      && Expanded(cards, options, Front) <= Flatten(pages)
      && forall i :: TotalCount(cards, options) <= i < |Flatten(pages)| ==> Flatten(pages)[i] == Face(EmptyFace(options))
    ensures options.cardArrangement == Some("side_by_side") ==>
      pages == Paged(Interleaved(Expanded(cards, options, Front), Expanded(cards, options, Back), options), options)
      && |pages| == CeilDiv(Stride(options) * TotalCount(cards, options), CardsPerPage(options))
    ensures options.cardArrangement !in {Some("doublesided"), Some("front_only"), Some("side_by_side")} ==>
      pages == []
    ensures TotalCount(cards, options) == 0 ==> pages == []
  {
    var rows := if options.pageRows != 0 then options.pageRows else 3;
    var cols := if options.pageColumns != 0 then options.pageColumns else 3;

    var frontCards, backCards := ExpandCards(cards, options);

    pages := [];
    if options.cardArrangement == Some("doublesided") {
      pages := ArrangeDoublesided(frontCards, backCards, rows, cols, options);
    } else if options.cardArrangement == Some("front_only") {
      var padded := AddPadding(frontCards, options);
      pages := Split(padded, rows, cols);
      assert pages == Paged(frontCards, options);
      ChunksFlatten(padded, CardsPerPage(options));
    } else if options.cardArrangement == Some("side_by_side") {
      var interleaved := InterleaveCards(frontCards, backCards, options);
      var padded := AddPadding(interleaved, options);
      pages := Split(padded, rows, cols);
      assert pages == Paged(interleaved, options);
    }
    if TotalCount(cards, options) == 0 {
      CeilDivZero(CardsPerPage(options));
    }
  }

  // ---------------------------------------------------------------------------
  // card_pages_generate_style
  // ---------------------------------------------------------------------------

  /** The page sizes the style block knows. */
  const PageSizes: map<string, string> := map[
    "A3" := "A3 portrait",
    "A4" := "210mm 297mm",
    "A5" := "A5 portrait",
    "Letter" := "letter portrait",
    "25x35" := "2.5in 3.5in"]

  /** The CSS page size of the `switch`: a known size maps to its dimensions,
      anything else (an absent size included) to "auto". */
  function PageSizeCss(pageSize: Option<string>): (css: string)
    ensures pageSize.Some? && pageSize.value in PageSizes ==> css == PageSizes[pageSize.value]
    ensures !(pageSize.Some? && pageSize.value in PageSizes) ==> css == "auto"
  {
    if pageSize == Some("A3") then "A3 portrait"
    else if pageSize == Some("A4") then "210mm 297mm"
    else if pageSize == Some("A5") then "A5 portrait"
    else if pageSize == Some("Letter") then "letter portrait"
    else if pageSize == Some("25x35") then "2.5in 3.5in"
    else "auto"
  }

  function GenerateStyle(options: Options): string {
    "<style>\n"
    + "@page {\n"
    + "    margin: 0;\n"
    + "    size:" + PageSizeCss(options.pageSize) + ";\n"
    + "    -webkit-print-color-adjust: exact;\n"
    + "}\n"
    + "</style>\n"
  }

  // ---------------------------------------------------------------------------
  // card_pages_wrap
  // ---------------------------------------------------------------------------

  /** A nested filler array inside `join` prints as its faces joined by ",". */
  function CellText(cell: Cell): string {
    match cell
    case Face(markup) => markup
    case Fillers(faces) => JoinWith(faces, ",")
  }

  function PageText(page: seq<Cell>): string {
    JoinWith(seq(|page|, i requires 0 <= i < |page| => CellText(page[i])), "\n")
  }

  /** The background style of the page at `index`: set exactly on the odd
      (back) pages of a doublesided document. */
  function BackgroundStyle(index: nat, options: Options): (style: string)
    ensures style != "" <==> options.cardArrangement == Some("doublesided") && index % 2 == 1
  {
    if options.cardArrangement == Some("doublesided") && index % 2 == 1 then
      "style=\"background-color:" + Show(options.defaultColor) + "\""
    else ""
  }

  /** The opening `<page>` tag of the page at `index`. */
  function PageOpen(index: nat, options: Options): string {
    var size := FirstTruthy([options.pageSize], "A4");
    "<page class=\"page page-preview\" size=\"" + size + "\" " + BackgroundStyle(index, options) + ">\n"
  }

  /** The page containers, page after page. */
  function Wrapped(pages: seq<seq<Cell>>, options: Options): string {
    if pages == [] then ""
    else
      var last := |pages| - 1;
      Wrapped(pages[..last], options) + PageOpen(last, options) + PageText(pages[last]) + "</page>\n"
  }

  /** The markup of the first pages is a prefix of the markup of all pages. */
  lemma {:induction false} WrappedPrefix(pages: seq<seq<Cell>>, options: Options, k: nat)
    requires k <= |pages|
    ensures Wrapped(pages[..k], options) <= Wrapped(pages, options)
    decreases |pages|
  {
    if k < |pages| {
      var init := pages[..|pages| - 1];
      assert pages[..k] == init[..k];
      WrappedPrefix(init, options, k);
    } else {
      assert pages[..k] == pages;
    }
  }

  /** The tag `card_pages_wrap` assembles from the size and the style is `PageOpen`. */
  lemma PageOpenOf(size: string, style: string, i: nat, options: Options)
    requires size == FirstTruthy([options.pageSize], "A4")
    requires style == (if options.cardArrangement == Some("doublesided") && i % 2 == 1
                       then "style=\"background-color:" + Show(options.defaultColor) + "\"" else "")
    ensures "<page class=\"page page-preview\" size=\"" + size + "\" " + style + ">\n" == PageOpen(i, options)
  {
  }

  /** One more page appends its container to the markup. */
  lemma WrappedStep(pages: seq<seq<Cell>>, i: nat, options: Options)
    requires i < |pages|
    ensures Wrapped(pages[..i + 1], options)
            == Wrapped(pages[..i], options) + PageOpen(i, options) + PageText(pages[i]) + "</page>\n"
  {
    assert pages[..i + 1][..i] == pages[..i];
  }

  /** `card_pages_wrap`. */
  method Wrap(pages: seq<seq<Cell>>, options: Options) returns (html: string)
    ensures html == Wrapped(pages, options)
  {
    var size := FirstTruthy([options.pageSize], "A4");
    html := "";
    for i := 0 to |pages|
      invariant html == Wrapped(pages[..i], options)
    {
      var style := if options.cardArrangement == Some("doublesided") && i % 2 == 1
                   then "style=\"background-color:" + Show(options.defaultColor) + "\"" else "";
      var open := "<page class=\"page page-preview\" size=\"" + size + "\" " + style + ">\n";
      PageOpenOf(size, style, i, options);
      html := html + open;
      html := html + PageText(pages[i]);
      html := html + "</page>\n";
      WrappedStep(pages, i, options);
    }
    assert pages[..|pages|] == pages;
  }

  // ---------------------------------------------------------------------------
  // card_pages_generate_html
  // ---------------------------------------------------------------------------

  /** `card_pages_generate_html`: the style block followed by the wrapped pages.
      Without cards, or with an unknown arrangement, the document is the style
      block alone. */
  method GenerateHtml(cards: seq<Card>, options: Option<Options>) returns (html: string)
    requires options.Some? ==> options.value.pageRows > 0 && options.value.pageColumns > 0
    ensures var o := if options.Some? then options.value else DefaultOptions();
      GenerateStyle(o) <= html
      && (TotalCount(cards, o) == 0 ==> html == GenerateStyle(o))
      && (o.cardArrangement !in {Some("doublesided"), Some("front_only"), Some("side_by_side")} ==>
            html == GenerateStyle(o))
  {
    var o := if options.Some? then options.value else DefaultOptions();
    var pages := ArrangePages(cards, o);
    var body := Wrap(pages, o);
    html := GenerateStyle(o) + body;
    if pages == [] {
      assert body == "";
    }
  }
}
