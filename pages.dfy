/** The page-layout helpers (js/cards.js, "Functions that generate pages of
    cards"): splitting a flat list of cells into pages, padding the last page,
    mirroring the rows of a back page for duplex printing, and interleaving
    fronts with backs. */
module Pages {
  import opened CardData
  import opened Faces

  /** One element of a page list. Padding appends blank faces one by one
      (`concat` flattens the array `card_generate_empty` returns), while
      side-by-side interleaving pushes that array as a single element. */
  datatype Cell = Face(markup: string) | Fillers(faces: seq<string>)

  // ---------------------------------------------------------------------------
  // Arithmetic
  // ---------------------------------------------------------------------------

  /** ceil(n / k). */
  function CeilDiv(n: nat, k: nat): nat
    requires k > 0
  {
    (n + k - 1) / k
  }

  /** No items need no pages. */
  lemma CeilDivZero(k: nat)
    requires k > 0
    ensures CeilDiv(0, k) == 0
  {
    DivModUnique(k - 1, k, 0, k - 1);
  }

  function Min(a: int, b: int): int {
    if a < b then a else b
  }

  /** Quotient and remainder are determined by any decomposition n == q*k + r with 0 <= r < k. */
  lemma DivModUnique(n: int, k: int, q: int, r: int)
    requires k > 0 && 0 <= r < k && n == q * k + r
    ensures n / k == q && n % k == r
  {
    var d := n / k - q;
    assert d * k == r - n % k;
    MultipleBound(d, k);
  }

  /** A non-zero multiple of k is at least k away from zero. */
  lemma {:induction false} MultipleBound(d: int, k: int)
    requires k > 0
    ensures d > 0 ==> d * k >= k
    ensures d < 0 ==> d * k <= -k
    decreases if d < 0 then -d else d
  {
    if d > 1 {
      MultipleBound(d - 1, k);
      assert d * k == (d - 1) * k + k;
    } else if d < -1 {
      MultipleBound(d + 1, k);
      assert d * k == (d + 1) * k - k;
    }
  }

  /** Row r of a grid of `cols` columns lies inside a grid of `rows` rows. */
  lemma RowInside(r: int, rows: int, cols: int)
    requires 0 <= r < rows && cols >= 0
    ensures (r + 1) * cols == r * cols + cols
    ensures 0 <= r * cols && r * cols + cols <= rows * cols
  {
    assert rows * cols - (r + 1) * cols == (rows - r - 1) * cols;
  }

  // ---------------------------------------------------------------------------
  // card_pages_split
  // ---------------------------------------------------------------------------

  /** Consecutive chunks of `k` elements; the last one may be shorter. */
  function Chunks<T>(data: seq<T>, k: nat): seq<seq<T>>
    requires k > 0
    decreases |data|
  {
    if |data| == 0 then []
    else if |data| <= k then [data]
    else [data[..k]] + Chunks(data[k..], k)
  }

  function Flatten<T>(pages: seq<seq<T>>): seq<T> {
    if pages == [] then [] else pages[0] + Flatten(pages[1..])
  }

  /** `card_pages_split`: slices of `rows * cols` elements, one page each. */
  method Split<T>(data: seq<T>, rows: int, cols: int) returns (pages: seq<seq<T>>)
    requires rows * cols > 0
    ensures pages == Chunks(data, rows * cols)
  {
    var perPage := rows * cols;
    pages := [];
    var i := 0;
    while i < |data|
      invariant 0 <= i
      invariant pages + Chunks(data[Min(i, |data|)..], perPage) == Chunks(data, perPage)
      decreases |data| - i
    {
      var page := data[i..Min(i + perPage, |data|)];
      var rest := data[i..];
      if |rest| > perPage {
        assert rest[..perPage] == page;
        assert rest[perPage..] == data[i + perPage..];
        assert Chunks(rest, perPage) == [page] + Chunks(data[i + perPage..], perPage);
      } else {
        assert rest == page;
        assert data[Min(i + perPage, |data|)..] == [];
      }
      pages := pages + [page];
      i := i + perPage;
    }
    assert data[Min(i, |data|)..] == [];
  }

  /** The pages, concatenated, are the input. */
  lemma {:induction false} ChunksFlatten<T>(data: seq<T>, k: nat)
    requires k > 0
    ensures Flatten(Chunks(data, k)) == data
    decreases |data|
  {
    if |data| > k {
      ChunksFlatten(data[k..], k);
      assert ([data[..k]] + Chunks(data[k..], k))[1..] == Chunks(data[k..], k);
      assert data == data[..k] + data[k..];
    } else if |data| > 0 {
      assert [data][1..] == [];
      assert data + [] == data;
    }
  }

  /** There are ceil(|data| / k) pages: every page but the last holds exactly
      k elements, and the last holds between 1 and k. No input, no pages. */
  lemma {:induction false} ChunksShape<T>(data: seq<T>, k: nat)
    requires k > 0
    ensures |Chunks(data, k)| == CeilDiv(|data|, k)
    ensures forall i :: 0 <= i < |Chunks(data, k)| - 1 ==> |Chunks(data, k)[i]| == k
    ensures forall i :: 0 <= i < |Chunks(data, k)| ==> 0 < |Chunks(data, k)[i]| <= k
    decreases |data|
  {
    var n := |data|;
    if n == 0 {
      DivModUnique(k - 1, k, 0, k - 1);
    } else if n <= k {
      DivModUnique(n + k - 1, k, 1, n - 1);
    } else {
      ChunksShape(data[k..], k);
      DivModUnique(n - k + k - 1, k, CeilDiv(n - k, k), (n - k + k - 1) % k);
      DivModUnique(n + k - 1, k, CeilDiv(n - k, k) + 1, (n - k + k - 1) % k);
      var c := Chunks(data, k);
      assert forall i :: 1 <= i < |c| ==> c[i] == Chunks(data[k..], k)[i - 1];
    }
  }

  /** A list of m * k elements splits into exactly m full pages. */
  lemma {:induction false} ChunksFull<T>(data: seq<T>, k: nat, m: nat)
    requires k > 0 && |data| == m * k
    ensures |Chunks(data, k)| == m
    ensures forall i :: 0 <= i < m ==> |Chunks(data, k)[i]| == k
  {
    if m > 1 {
      assert m * k == (m - 1) * k + k;
      assert (m - 1) * k >= k by {
        assert (m - 1) * k - k == (m - 2) * k;
      }
      ChunksFull(data[k..], k, m - 1);
      var c := Chunks(data, k);
      assert forall i :: 1 <= i < |c| ==> c[i] == Chunks(data[k..], k)[i - 1];
    }
  }

  // ---------------------------------------------------------------------------
  // card_pages_merge
  // ---------------------------------------------------------------------------

  /** Front page i, then back page i, for every front page. */
  function Merged<T>(frontPages: seq<T>, backPages: seq<T>): (r: seq<T>)
    requires |frontPages| <= |backPages|
    ensures |r| == 2 * |frontPages|
  {
    if |frontPages| == 0 then []
    else
      var i := |frontPages| - 1;
      Merged(frontPages[..i], backPages) + [frontPages[i], backPages[i]]
  }

  /** Fronts sit at even positions, and the back with the same index follows each. */
  lemma {:induction false} MergedAt<T>(frontPages: seq<T>, backPages: seq<T>, i: nat)
    requires |frontPages| <= |backPages| && i < |frontPages|
    ensures Merged(frontPages, backPages)[2 * i] == frontPages[i]
    ensures Merged(frontPages, backPages)[2 * i + 1] == backPages[i]
  {
    var last := |frontPages| - 1;
    if i < last {
      MergedAt(frontPages[..last], backPages, i);
    }
  }

  /** `card_pages_merge`. */
  method Merge<T>(frontPages: seq<T>, backPages: seq<T>) returns (result: seq<T>)
    requires |frontPages| <= |backPages|
    ensures result == Merged(frontPages, backPages)
  {
    result := [];
    for i := 0 to |frontPages|
      invariant result == Merged(frontPages[..i], backPages)
    {
      assert frontPages[..i + 1][..i] == frontPages[..i];
      result := result + [frontPages[i]];
      result := result + [backPages[i]];
    }
    assert frontPages[..|frontPages|] == frontPages;
  }

  // ---------------------------------------------------------------------------
  // cards_pages_flip_left_right
  // ---------------------------------------------------------------------------

  function Reverse<T>(s: seq<T>): (r: seq<T>)
    ensures |r| == |s|
  {
    if s == [] then [] else Reverse(s[1..]) + [s[0]]
  }

  lemma {:induction false} ReverseAt<T>(s: seq<T>, k: nat)
    requires k < |s|
    ensures Reverse(s)[k] == s[|s| - 1 - k]
  {
    if k < |s| - 1 {
      ReverseAt(s[1..], k);
    }
  }

  lemma ReverseReverse<T>(s: seq<T>)
    ensures Reverse(Reverse(s)) == s
  {
    forall k | 0 <= k < |s| ensures Reverse(Reverse(s))[k] == s[k] {
      ReverseAt(Reverse(s), k);
      ReverseAt(s, |s| - 1 - k);
    }
  }

  lemma {:induction false} ReversePermutation<T>(s: seq<T>)
    ensures multiset(Reverse(s)) == multiset(s)
  {
    if s != [] {
      ReversePermutation(s[1..]);
      assert s == [s[0]] + s[1..];
    }
  }

  /** A page of `rows` rows of `cols` cells with every row reversed. */
  function MirrorRows<T>(page: seq<T>, rows: nat, cols: nat): (r: seq<T>)
    requires |page| == rows * cols
    ensures |r| == |page|
    decreases rows
  {
    if rows == 0 then []
    else
      assert rows * cols == (rows - 1) * cols + cols;
      Reverse(page[..cols]) + MirrorRows(page[cols..], rows - 1, cols)
  }

  /** Cell (r, c) of the mirrored page is cell (r, cols-1-c) of the page. */
  lemma {:induction false} MirrorRowsAt<T>(page: seq<T>, rows: nat, cols: nat, r: nat, c: nat)
    requires |page| == rows * cols && r < rows && c < cols
    ensures r * cols + c < |page| && r * cols + (cols - 1 - c) < |page|
    ensures MirrorRows(page, rows, cols)[r * cols + c] == page[r * cols + (cols - 1 - c)]
  {
    RowInside(r, rows, cols);
    var m := MirrorRows(page, rows, cols);
    var head, tail := page[..cols], page[cols..];
    assert |tail| == (rows - 1) * cols by {
      assert rows * cols == (rows - 1) * cols + cols;
    }
    assert m == Reverse(head) + MirrorRows(tail, rows - 1, cols);
    if r == 0 {
      assert r * cols == 0;
      ReverseAt(head, c);
    } else {
      var prev := (r - 1) * cols;
      assert r * cols == prev + cols;
      MirrorRowsAt(tail, rows - 1, cols, r - 1, c);
      assert m[r * cols + c] == MirrorRows(tail, rows - 1, cols)[prev + c];
      assert tail[prev + (cols - 1 - c)] == page[r * cols + (cols - 1 - c)];
    }
  }

  /** Mirroring twice restores the page. */
  lemma {:induction false} MirrorRowsInvolution<T>(page: seq<T>, rows: nat, cols: nat)
    requires |page| == rows * cols
    ensures MirrorRows(MirrorRows(page, rows, cols), rows, cols) == page
    decreases rows
  {
    if rows > 0 {
      assert rows * cols == (rows - 1) * cols + cols;
      var m := MirrorRows(page, rows, cols);
      assert m[..cols] == Reverse(page[..cols]);
      assert m[cols..] == MirrorRows(page[cols..], rows - 1, cols);
      ReverseReverse(page[..cols]);
      MirrorRowsInvolution(page[cols..], rows - 1, cols);
      assert page == page[..cols] + page[cols..];
    }
  }

  /** Mirroring only reorders the cells. */
  lemma {:induction false} MirrorRowsPermutation<T>(page: seq<T>, rows: nat, cols: nat)
    requires |page| == rows * cols
    ensures multiset(MirrorRows(page, rows, cols)) == multiset(page)
    decreases rows
  {
    if rows > 0 {
      assert rows * cols == (rows - 1) * cols + cols;
      assert page == page[..cols] + page[cols..];
      assert multiset(page) == multiset(page[..cols]) + multiset(page[cols..]);
      ReversePermutation(page[..cols]);
      MirrorRowsPermutation(page[cols..], rows - 1, cols);
    }
  }

  /** Appending a full row to a grid appends that row reversed to its mirror. */
  lemma {:induction false} MirrorRowsSnoc<T>(page: seq<T>, row: seq<T>, k: nat, cols: nat)
    requires |page| == k * cols && |row| == cols
    ensures |page + row| == (k + 1) * cols
    ensures MirrorRows(page + row, k + 1, cols) == MirrorRows(page, k, cols) + Reverse(row)
    decreases k
  {
    assert (k + 1) * cols == k * cols + cols;
    if k == 0 {
      assert page + row == row;
      assert row[..cols] == row;
      assert row[cols..] == [];
    } else {
      assert k * cols == (k - 1) * cols + cols;
      assert (page + row)[..cols] == page[..cols];
      assert (page + row)[cols..] == page[cols..] + row;
      MirrorRowsSnoc(page[cols..], row, k - 1, cols);
    }
  }

  /** On a 2x2 page the two cards of each row swap places. */
  lemma MirrorRowsExample()
    ensures MirrorRows([10, 11, 12, 13], 2, 2) == [11, 10, 13, 12]
  {
    var page := [10, 11, 12, 13];
    assert page[..2] == [10, 11] && page[2..] == [12, 13];
    assert Reverse([10, 11]) == [11, 10] by {
      assert Reverse([10, 11]) == Reverse([11]) + [10];
    }
    assert Reverse([12, 13]) == [13, 12] by {
      assert Reverse([12, 13]) == Reverse([13]) + [12];
    }
    assert MirrorRows([12, 13], 1, 2) == [13, 12] by {
      assert [12, 13][..2] == [12, 13] && [12, 13][2..] == [];
    }
  }

  /** `cards_pages_flip_left_right`: row by row, the cells from the last
      column to the first. */
  method FlipLeftRight<T>(cards: seq<T>, rows: nat, cols: nat) returns (result: seq<T>)
    requires |cards| == rows * cols
    ensures result == MirrorRows(cards, rows, cols)
  {
    result := [];
    for r := 0 to rows
      invariant r * cols <= |cards|
      invariant result == MirrorRows(cards[..r * cols], r, cols)
    {
      RowInside(r, rows, cols);
      var row := cards[r * cols .. r * cols + cols];
      for c := 0 to cols
        invariant result == MirrorRows(cards[..r * cols], r, cols) + Reverse(row)[..c]
      {
        var i := r * cols + (cols - 1 - c);
        ReverseAt(row, c);
        assert Reverse(row)[..c + 1] == Reverse(row)[..c] + [cards[i]];
        result := result + [cards[i]];
      }
      assert Reverse(row)[..cols] == Reverse(row);
      assert cards[..(r + 1) * cols] == cards[..r * cols] + row;
      MirrorRowsSnoc(cards[..r * cols], row, r, cols);
    }
    assert cards[..rows * cols] == cards;
  }

  // ---------------------------------------------------------------------------
  // card_pages_add_padding
  // ---------------------------------------------------------------------------

  /** `options.page_rows * options.page_columns`. */
  function CardsPerPage(options: Options): (n: int)
    requires options.pageRows > 0 && options.pageColumns > 0
    ensures n >= options.pageRows && n >= options.pageColumns
  {
    assert options.pageRows * options.pageColumns - options.pageRows == options.pageRows * (options.pageColumns - 1);
    assert options.pageRows * options.pageColumns - options.pageColumns == (options.pageRows - 1) * options.pageColumns;
    options.pageRows * options.pageColumns
  }

  /** Faces appended with `concat`: one cell per face. */
  function AsFaces(faces: seq<string>): (cells: seq<Cell>)
    ensures |cells| == |faces|
    ensures forall i :: 0 <= i < |faces| ==> cells[i] == Face(faces[i])
  {
    seq(|faces|, i requires 0 <= i < |faces| => Face(faces[i]))
  }

  /** Padding n cards with `k - n % k` blanks (none when k divides n) gives
      ceil(n / k) full pages. */
  lemma PaddedLength(n: nat, k: nat)
    requires k > 0
    ensures n % k != 0 ==> n + (k - n % k) == CeilDiv(n, k) * k
    ensures n % k == 0 ==> n == CeilDiv(n, k) * k
  {
    var q, m := n / k, n % k;
    if m != 0 {
      DivModUnique(n + k - 1, k, q + 1, m - 1);
    } else {
      DivModUnique(n + k - 1, k, q, k - 1);
    }
  }

  /** `card_pages_add_padding`: the input followed by fewer than a page of
      blank faces, making the length a whole number of pages; an input that
      already fills its pages is returned unchanged. */
  function AddPadding(cards: seq<Cell>, options: Options): (r: seq<Cell>)
    requires options.pageRows > 0 && options.pageColumns > 0
    ensures |r| == CeilDiv(|cards|, CardsPerPage(options)) * CardsPerPage(options)
    ensures cards <= r
    ensures |r| - |cards| < CardsPerPage(options)
    ensures forall i :: |cards| <= i < |r| ==> r[i] == Face(EmptyFace(options))
    ensures |cards| % CardsPerPage(options) == 0 ==> r == cards
  {
    var perPage := CardsPerPage(options);
    var lastPageCards := |cards| % perPage;
    PaddedLength(|cards|, perPage);
    if lastPageCards != 0 then cards + AsFaces(EmptyFaces(perPage - lastPageCards, options))
    else cards
  }

  /** Padding is idempotent. */
  lemma AddPaddingIdempotent(cards: seq<Cell>, options: Options)
    requires options.pageRows > 0 && options.pageColumns > 0
    ensures AddPadding(AddPadding(cards, options), options) == AddPadding(cards, options)
  {
    var k := CardsPerPage(options);
    var padded := AddPadding(cards, options);
    DivModUnique(|padded|, k, CeilDiv(|cards|, k), 0);
  }

  // ---------------------------------------------------------------------------
  // card_pages_interleave_cards
  // ---------------------------------------------------------------------------

  /** Cells per front/back pair: the pair, plus one filler element when
      there are more than two columns. */
  function Stride(options: Options): nat {
    if options.pageColumns > 2 then 3 else 2
  }

  /** The single element pushed after each pair: the array of
      `page_columns - 2` blank faces. */
  function FillerCell(options: Options): Cell {
    Fillers(EmptyFaces(options.pageColumns - 2, options))
  }

  /** Front i, back i and (with more than two columns) one filler element,
      for every front. */
  function Interleaved(frontCards: seq<Cell>, backCards: seq<Cell>, options: Options): (r: seq<Cell>)
    requires |frontCards| <= |backCards|
    ensures |r| == Stride(options) * |frontCards|
  {
    if |frontCards| == 0 then []
    else
      var i := |frontCards| - 1;
      Interleaved(frontCards[..i], backCards, options)
      + [frontCards[i], backCards[i]]
      + (if options.pageColumns > 2 then [FillerCell(options)] else [])
  }

  /** Position of front i, back i and the filler after them. */
  lemma {:induction false} InterleavedAt(frontCards: seq<Cell>, backCards: seq<Cell>, options: Options, i: nat)
    requires |frontCards| <= |backCards| && i < |frontCards|
    ensures options.pageColumns > 2 ==>
      Interleaved(frontCards, backCards, options)[3 * i] == frontCards[i]
      && Interleaved(frontCards, backCards, options)[3 * i + 1] == backCards[i]
      && Interleaved(frontCards, backCards, options)[3 * i + 2] == FillerCell(options)
    ensures options.pageColumns <= 2 ==>
      Interleaved(frontCards, backCards, options)[2 * i] == frontCards[i]
      && Interleaved(frontCards, backCards, options)[2 * i + 1] == backCards[i]
  {
    var last := |frontCards| - 1;
    if i < last {
      InterleavedAt(frontCards[..last], backCards, options, i);
    }
  }

  /** The filler element holds `page_columns - 2` blank faces. */
  lemma FillerCellFaces(options: Options)
    requires options.pageColumns > 2
    ensures |FillerCell(options).faces| == options.pageColumns - 2
    ensures forall i :: 0 <= i < |FillerCell(options).faces| ==> FillerCell(options).faces[i] == EmptyFace(options)
  {
  }

  /** `card_pages_interleave_cards`. */
  method InterleaveCards(frontCards: seq<Cell>, backCards: seq<Cell>, options: Options) returns (result: seq<Cell>)
    requires |frontCards| <= |backCards|
    ensures result == Interleaved(frontCards, backCards, options)
  {
    result := [];
    var i := 0;
    while i < |frontCards|
      invariant 0 <= i <= |frontCards|
      invariant result == Interleaved(frontCards[..i], backCards, options)
    {
      assert frontCards[..i + 1][..i] == frontCards[..i];
      result := result + [frontCards[i]];
      result := result + [backCards[i]];
      if options.pageColumns > 2 {
        var fillers := Repeat(EmptyFace(options), options.pageColumns - 2);
        result := result + [Fillers(fillers)];
      }
      i := i + 1;
    }
    assert frontCards[..|frontCards|] == frontCards;
  }
}
