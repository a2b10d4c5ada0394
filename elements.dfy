/** Content elements of a card face: the element templates, the tag registry
    and the dispatch of one content line (js/cards.js, "Card element
    generating functions" and `card_generate_contents`). */
module Elements {
  import opened JsText
  import opened CardData

  /** The generators of the registry; "rule" and "ruler" share `Ruler`, and
      "disabled" renders nothing. */
  datatype Element = Subtitle | Property | Ruler | Description | Text | Bullet | Fill | Section | Disabled

  /** `card_element_generators`: tag name to generator. */
  const Generators: map<string, Element> := map[
    "subtitle" := Subtitle,
    "property" := Property,
    "rule" := Ruler,
    "ruler" := Ruler,
    "description" := Description,
    "text" := Text,
    "bullet" := Bullet,
    "fill" := Fill,
    "section" := Section,
    "disabled" := Disabled]

  /** `params[i]`, undefined past the end. */
  function Param(params: seq<string>, i: nat): Option<string> {
    if i < |params| then Some(params[i]) else None
  }

  function TitleElement(card: Card, options: Options): string {
    var title := FirstTruthy([card.title], "");
    var titleSize := FirstTruthy([card.titleSize, options.defaultTitleSize], "normal");
    "<div class=\"card-title card-title-" + titleSize + "\">" + title + "</div>"
  }

  function IconElement(card: Card, options: Options): string {
    var icon := IconFront(card, options);
    var classname := if options.iconInline then "inlineicon" else "icon";
    "<div class=\"card-title-" + classname + "-container\">"
    + "    <div class=\"card-title-" + classname + " icon-" + icon + "\">"
    + "    </div>"
    + "</div>"
  }

  /** The markup one registered generator produces. A missing parameter is
      "" where the template reads it under `||`, and "undefined" where it is
      concatenated directly. */
  function Generate(e: Element, params: seq<string>, card: Card, options: Options): string {
    match e
    case Subtitle =>
      "<div class=\"card-element card-subtitle\">" + FirstTruthy([Param(params, 0)], "") + "</div>"
    case Ruler =>
      var fill := "fill=\"" + ColorFront(card, options) + "\"";
      "<svg class=\"card-ruler\" height=\"1\" width=\"100\" viewbox=\"0 0 100 1\" preserveaspectratio=\"none\" xmlns=\"http://www.w3.org/2000/svg\">"
      + "    <polyline points=\"0,0 100,0.5 0,1\" " + fill + "></polyline>"
      + "</svg>"
    case Property =>
      "<div class=\"card-element card-property-line\">"
      + "   <h4 class=\"card-property-name\">" + Show(Param(params, 0)) + "</h4>"
      + "   <p class=\"card-p card-property-text\">" + Show(Param(params, 1)) + "</p>"
      + "</div>"
    case Description =>
      "<div class=\"card-element card-description-line\">"
      + "   <h4 class=\"card-description-name\">" + Show(Param(params, 0)) + "</h4>"
      + "   <p class=\"card-p card-description-text\">" + Show(Param(params, 1)) + "</p>"
      + "</div>"
    case Text =>
      "<div class=\"card-element card-description-line\">"
      + "   <p class=\"card-p card-description-text\">" + Show(Param(params, 0)) + "</p>"
      + "</div>"
    case Bullet =>
      "<ul class=\"card-element card-bullet-line\">"
      + "   <li class=\"card-bullet\">" + Show(Param(params, 0)) + "</li>"
      + "</ul>"
    case Section =>
      "<h3 class=\"card-section\" style=\"color:" + ColorFront(card, options) + "\">"
      + FirstTruthy([Param(params, 0)], "") + "</h3>"
    case Fill =>
      "<span class=\"card-fill\" style=\"flex:" + FirstTruthy([Param(params, 0)], "1") + "\"></span>"
    case Disabled =>
      ""
  }

  /** The diagnostic for an unregistered tag; it shows the parameters only. */
  function UnknownElement(params: seq<string>): string {
    "<div>Unknown element: " + JoinWith(params, "<br />") + "</div>"
  }

  /** One content line: a registered tag goes to its generator, any other
      non-empty tag to the diagnostic, and an empty tag yields undefined (None).
      The line renders to undefined exactly when the text before its first `|`
      is blank. */
  function RenderLine(line: string, card: Card, options: Options): (r: Option<string>)
    ensures r.None? <==> AllWhitespace(SplitOn(line, '|')[0])
  {
    var parts := SplitParams(line);
    Dispatch(parts[0], parts[1..], card, options)
  }

  /** The body of the `contents.map` callback once the line is split. */
  function Dispatch(name: string, params: seq<string>, card: Card, options: Options): (r: Option<string>)
    ensures r.None? <==> name == ""
  {
    assert "" !in Generators;
    if name in Generators then Some(Generate(Generators[name], params, card, options))
    else if |name| > 0 then Some(UnknownElement(params))
    else None
  }

  predicate IsLowercaseWord(t: string) {
    t != "" && forall i :: 0 <= i < |t| ==> 'a' <= t[i] <= 'z'
  }

  /** A lowercase word is a single trimmed field. */
  lemma LowercaseWordClean(t: string)
    requires IsLowercaseWord(t)
    ensures '|' !in t && Trim(t) == t
  {
    TrimExact("", t, "");
    assert "" + t + "" == t;
  }

  /** Every registered tag is a lowercase word. */
  lemma RegisteredTagsAreWords()
    ensures forall t :: t in Generators ==> IsLowercaseWord(t)
  {
  }

  /** A line is its parsed tag dispatched with its parsed parameters. */
  lemma RenderIsDispatch(line: string, card: Card, options: Options)
    ensures RenderLine(line, card, options)
            == Dispatch(SplitParams(line)[0], SplitParams(line)[1..], card, options)
  {
  }

  /** A line whose trimmed first field is a registered tag renders through
      that tag's generator, with the other fields, trimmed, as parameters.
      Every line is such a join of its `|`-free fields (`JsText.SplitJoin`). */
  lemma RenderRegistered(fields: seq<string>, card: Card, options: Options)
    requires |fields| >= 1
    requires forall i :: 0 <= i < |fields| ==> '|' !in fields[i]
    requires Trim(fields[0]) in Generators
    ensures RenderLine(JoinWith(fields, "|"), card, options)
            == Some(Generate(Generators[Trim(fields[0])], TrimAll(fields[1..]), card, options))
  {
    PartsOfJoin(fields);
    RenderIsDispatch(JoinWith(fields, "|"), card, options);
  }

  /** A line whose trimmed first field is non-empty and not registered renders
      the diagnostic of its other fields, trimmed. */
  lemma RenderUnregistered(fields: seq<string>, card: Card, options: Options)
    requires |fields| >= 1
    requires forall i :: 0 <= i < |fields| ==> '|' !in fields[i]
    requires Trim(fields[0]) !in Generators && Trim(fields[0]) != ""
    ensures RenderLine(JoinWith(fields, "|"), card, options)
            == Some(UnknownElement(TrimAll(fields[1..])))
  {
    PartsOfJoin(fields);
    RenderIsDispatch(JoinWith(fields, "|"), card, options);
  }

  lemma RenderParts(tag: string, params: seq<string>, card: Card, options: Options)
    requires '|' !in tag && Trim(tag) == tag
    requires forall i :: 0 <= i < |params| ==> '|' !in params[i] && Trim(params[i]) == params[i]
    ensures SplitParams(JoinWith([tag] + params, "|")) == [tag] + params
  {
    var fields := [tag] + params;
    forall i | 0 <= i < |fields| ensures '|' !in fields[i] && Trim(fields[i]) == fields[i] {
      if i > 0 { assert fields[i] == params[i - 1]; }
    }
    SplitParamsOfCleanJoin(fields);
  }

  /** A line of clean fields with a non-empty unregistered tag renders the
      diagnostic of exactly those parameters. */
  lemma RenderCleanUnregistered(tag: string, params: seq<string>, card: Card, options: Options)
    requires tag !in Generators && tag != ""
    requires '|' !in tag && Trim(tag) == tag
    requires forall i :: 0 <= i < |params| ==> '|' !in params[i] && Trim(params[i]) == params[i]
    ensures RenderLine(JoinWith([tag] + params, "|"), card, options) == Some(UnknownElement(params))
  {
    RenderParts(tag, params, card, options);
  }

  /** "frobnicate|x" renders the diagnostic "Unknown element: x". */
  lemma UnknownTagExample(card: Card, options: Options)
    ensures RenderLine("frobnicate|x", card, options) == Some("<div>Unknown element: x</div>")
  {
    var line := JoinWith(["frobnicate"] + ["x"], "|");
    assert line == "frobnicate|x" by {
      assert ["frobnicate"] + ["x"] == ["frobnicate", "x"];
      assert JoinWith(["frobnicate", "x"], "|") == "frobnicate" + "|" + JoinWith(["x"], "|");
    }
    assert RenderLine(line, card, options) == Some(UnknownElement(["x"])) by {
      LowercaseWordClean("frobnicate");
      LowercaseWordClean("x");
      assert "frobnicate" !in Generators;
      RenderCleanUnregistered("frobnicate", ["x"], card, options);
    }
    assert UnknownElement(["x"]) == "<div>Unknown element: x</div>" by {
      assert JoinWith(["x"], "<br />") == "x";
    }
  }

  /** Array.prototype.join renders undefined as "". */
  function JoinText(r: Option<string>): string {
    if r.Some? then r.value else ""
  }

  /** The join entries of `contents.map(...)`: one per content line, in order. */
  function ContentEntries(contents: seq<string>, card: Card, options: Options): (es: seq<string>)
    ensures |es| == |contents|
    ensures forall i :: 0 <= i < |contents| ==> es[i] == JoinText(RenderLine(contents[i], card, options))
  {
    if contents == [] then []
    else
      var rest := ContentEntries(contents[1..], card, options);
      assert forall i :: 1 <= i < |contents| ==> contents[i] == contents[1..][i - 1];
      [JoinText(RenderLine(contents[0], card, options))] + rest
  }

  function GenerateContents(contents: seq<string>, card: Card, options: Options): string {
    "<div class=\"card-content-container\">"
    + JoinWith(ContentEntries(contents, card, options), "\n")
    + "</div>"
  }
}
