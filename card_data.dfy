/** Card records, rendering options, and the small rules that read them:
    the colour and icon fallback chains, the repeat count and the content-line
    parser (js/cards.js, "Card definition related functions"). */
module CardData {
  import opened JsText

  /** One card record as the caller supplies it; every optional property may be absent. */
  datatype Card = Card(
    count: Option<int>,
    title: Option<string>,
    titleSize: Option<string>,
    contents: seq<string>,
    color: Option<string>,
    colorFront: Option<string>,
    colorBack: Option<string>,
    icon: Option<string>,
    iconFront: Option<string>,
    iconBack: Option<string>)

  /** The options object. Page rows and columns are whole numbers. */
  datatype Options = Options(
    defaultColor: Option<string>,
    defaultIcon: Option<string>,
    defaultTitleSize: Option<string>,
    pageSize: Option<string>,
    pageRows: int,
    pageColumns: int,
    cardArrangement: Option<string>,
    cardSize: Option<string>,
    cardCount: Option<int>,
    iconInline: bool)

  /** The options used when the caller passes none. */
  function DefaultOptions(): Options {
    Options(
      defaultColor := Some("black"),
      defaultIcon := Some("ace"),
      defaultTitleSize := Some("13"),
      pageSize := Some("A4"),
      pageRows := 3,
      pageColumns := 3,
      cardArrangement := Some("doublesided"),
      cardSize := Some("25x35"),
      cardCount := None,
      iconInline := true)
  }

  /** Front colour: `color_front || color || default_color || "black"`. */
  function ColorFront(card: Card, options: Options): (r: string)
    ensures r != ""
    ensures Truthy(card.colorFront) ==> r == card.colorFront.value
    ensures !Truthy(card.colorFront) && Truthy(card.color) ==> r == card.color.value
    ensures !Truthy(card.colorFront) && !Truthy(card.color) && Truthy(options.defaultColor) ==>
              r == options.defaultColor.value
    ensures !Truthy(card.colorFront) && !Truthy(card.color) && !Truthy(options.defaultColor) ==>
              r == "black"
  {
    var chain := [card.colorFront, card.color, options.defaultColor];
    assert chain[0] == card.colorFront && chain[1] == card.color && chain[2] == options.defaultColor;
    FirstTruthy(chain, "black")
  }

  /** Back colour: `color_back || color || default_color || "black"`. */
  function ColorBack(card: Card, options: Options): (r: string)
    ensures r != ""
    ensures Truthy(card.colorBack) ==> r == card.colorBack.value
    ensures !Truthy(card.colorBack) && Truthy(card.color) ==> r == card.color.value
    ensures !Truthy(card.colorBack) && !Truthy(card.color) && Truthy(options.defaultColor) ==>
              r == options.defaultColor.value
    ensures !Truthy(card.colorBack) && !Truthy(card.color) && !Truthy(options.defaultColor) ==>
              r == "black"
  {
    var chain := [card.colorBack, card.color, options.defaultColor];
    assert chain[0] == card.colorBack && chain[1] == card.color && chain[2] == options.defaultColor;
    FirstTruthy(chain, "black")
  }

  /** Front icon: `icon_front || icon || default_icon || "ace"`. */
  function IconFront(card: Card, options: Options): (r: string)
    ensures r != ""
    ensures Truthy(card.iconFront) ==> r == card.iconFront.value
    ensures !Truthy(card.iconFront) && Truthy(card.icon) ==> r == card.icon.value
    ensures !Truthy(card.iconFront) && !Truthy(card.icon) && Truthy(options.defaultIcon) ==>
              r == options.defaultIcon.value
    ensures !Truthy(card.iconFront) && !Truthy(card.icon) && !Truthy(options.defaultIcon) ==>
              r == "ace"
  {
    var chain := [card.iconFront, card.icon, options.defaultIcon];
    assert chain[0] == card.iconFront && chain[1] == card.icon && chain[2] == options.defaultIcon;
    FirstTruthy(chain, "ace")
  }

  /** Back icon: `icon_back || icon || default_icon || "ace"`. */
  function IconBack(card: Card, options: Options): (r: string)
    ensures r != ""
    ensures Truthy(card.iconBack) ==> r == card.iconBack.value
    ensures !Truthy(card.iconBack) && Truthy(card.icon) ==> r == card.icon.value
    ensures !Truthy(card.iconBack) && !Truthy(card.icon) && Truthy(options.defaultIcon) ==>
              r == options.defaultIcon.value
    ensures !Truthy(card.iconBack) && !Truthy(card.icon) && !Truthy(options.defaultIcon) ==>
              r == "ace"
  {
    var chain := [card.iconBack, card.icon, options.defaultIcon];
    assert chain[0] == card.iconBack && chain[1] == card.icon && chain[2] == options.defaultIcon;
    FirstTruthy(chain, "ace")
  }

  /** Number of copies of a card: `options.card_count || data.count || 1`.
      A zero count falls through to the next option; the result is never 0
      but may be negative. */
  function RepeatCount(card: Card, options: Options): (n: int)
    ensures n != 0
    ensures TruthyNumber(options.cardCount) ==> n == options.cardCount.value
    ensures !TruthyNumber(options.cardCount) && TruthyNumber(card.count) ==> n == card.count.value
    ensures !TruthyNumber(options.cardCount) && !TruthyNumber(card.count) ==> n == 1
  {
    if TruthyNumber(options.cardCount) then options.cardCount.value
    else if TruthyNumber(card.count) then card.count.value
    else 1
  }

  /** `value.split("|").map(trim)`: one trimmed part per `|`-separated segment. */
  function SplitParams(line: string): (parts: seq<string>)
    ensures |parts| == Occurrences(line, '|') + 1
  {
    var raw := SplitOn(line, '|');
    seq(|raw|, i requires 0 <= i < |raw| => Trim(raw[i]))
  }

  /** Every part is free of `|` and already trimmed. */
  lemma SplitParamsTrimmed(line: string)
    ensures forall i :: 0 <= i < |SplitParams(line)| ==>
              '|' !in SplitParams(line)[i] && Trim(SplitParams(line)[i]) == SplitParams(line)[i]
  {
    var raw := SplitOn(line, '|');
    forall i | 0 <= i < |raw|
      ensures '|' !in SplitParams(line)[i] && Trim(SplitParams(line)[i]) == SplitParams(line)[i]
    {
      TrimIdempotent(raw[i]);
      assert forall c :: c in Trim(raw[i]) ==> c in raw[i];
    }
  }

  /** Parsing a line assembled from `|`-free fields gives the trimmed fields back. */
  lemma SplitParamsOfJoin(fields: seq<string>)
    requires |fields| >= 1
    requires forall i :: 0 <= i < |fields| ==> '|' !in fields[i]
    ensures SplitParams(JoinWith(fields, "|")) == seq(|fields|, i requires 0 <= i < |fields| => Trim(fields[i]))
  {
    JoinSplit(fields, '|');
  }

  /** Each field trimmed, in order. */
  function TrimAll(fields: seq<string>): seq<string> {
    seq(|fields|, i requires 0 <= i < |fields| => Trim(fields[i]))
  }

  /** The parser's tag and parameters for a line of `|`-free fields: the first
      field trimmed, then the other fields trimmed. */
  lemma PartsOfJoin(fields: seq<string>)
    requires |fields| >= 1
    requires forall i :: 0 <= i < |fields| ==> '|' !in fields[i]
    ensures SplitParams(JoinWith(fields, "|"))[0] == Trim(fields[0])
    ensures SplitParams(JoinWith(fields, "|"))[1..] == TrimAll(fields[1..])
  {
    SplitParamsOfJoin(fields);
    var parts := SplitParams(JoinWith(fields, "|"));
    assert |parts| == |fields|;
    forall i | 0 <= i < |fields| - 1 ensures parts[1..][i] == TrimAll(fields[1..])[i] {
      assert parts[1..][i] == parts[i + 1] == Trim(fields[i + 1]);
    }
  }

  /** Parsing a line assembled from `|`-free, already trimmed fields gives the fields back. */
  lemma SplitParamsOfCleanJoin(fields: seq<string>)
    requires |fields| >= 1
    requires forall i :: 0 <= i < |fields| ==> '|' !in fields[i] && Trim(fields[i]) == fields[i]
    ensures SplitParams(JoinWith(fields, "|")) == fields
  {
    SplitParamsOfJoin(fields);
  }
}
