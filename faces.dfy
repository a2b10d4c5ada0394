/** Whole card faces: the front, the back and the blank padding face, and
    the repetition of a value (js/cards.js, "Card generating functions"). */
module Faces {
  import opened JsText
  import opened CardData
  import opened Elements

  /** `n` copies of `x`; none when `n` is zero or negative. */
  function Copies<T>(x: T, n: int): (r: seq<T>)
    ensures |r| == if n < 0 then 0 else n
    ensures forall i :: 0 <= i < |r| ==> r[i] == x
  {
    if n <= 0 then [] else Copies(x, n - 1) + [x]
  }

  /** `card_repeat`: pushes `card` while the counter is below `count`. */
  method Repeat<T>(card: T, count: int) returns (result: seq<T>)
    ensures result == Copies(card, count)
  {
    result := [];
    var i := 0;
    while i < count
      invariant 0 <= i <= if count < 0 then 0 else count
      invariant result == Copies(card, i)
    {
      result := result + [card];
      i := i + 1;
    }
    assert count < 0 ==> |Copies(card, count)| == 0;
  }

  function ColorStyle(color: string): string {
    "style=\"color:" + color + "; border-color:" + color + "; background-color:" + color + "\""
  }

  function GradientStyle(color: string): string {
    "style=\"background: radial-gradient(ellipse at center, white 20%, " + color + " 120%)\""
  }

  function CardOpen(options: Options, style: string): string {
    "<div class=\"card card-size-" + Show(options.cardSize) + "\" " + style + ">"
  }

  /** `card_generate_front`: icon, title and contents inside a face coloured
      with the front colour. */
  function GenerateFront(card: Card, options: Options): string {
    var color := ColorFront(card, options);
    CardOpen(options, ColorStyle(color))
    + IconElement(card, options)
    + TitleElement(card, options)
    + GenerateContents(card.contents, card, options)
    + "</div>"
  }

  /** `card_generate_back`: the back panel with the back icon, coloured with
      the back colour. */
  function GenerateBack(card: Card, options: Options): string {
    var color := ColorBack(card, options);
    var style := ColorStyle(color);
    CardOpen(options, style)
    + "  <div class=\"card-back\" " + GradientStyle(color) + ">"
    + "    <div class=\"card-back-inner\">"
    + "      <div class=\"card-back-icon icon-" + IconBack(card, options) + "\" " + style + "></div>"
    + "    </div>"
    + "  </div>"
    + "</div>"
  }

  /** The blank white face used for padding. */
  function EmptyFace(options: Options): string {
    CardOpen(options, ColorStyle("white")) + "</div>"
  }

  /** `card_generate_empty`: `count` blank faces. */
  function EmptyFaces(count: int, options: Options): (faces: seq<string>)
    ensures |faces| == if count < 0 then 0 else count
    ensures forall i :: 0 <= i < |faces| ==> faces[i] == EmptyFace(options)
  {
    Copies(EmptyFace(options), count)
  }
}
