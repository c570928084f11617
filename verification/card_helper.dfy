/**
 * Adaptive Card documents: text blocks with optional styling keys, a card
 * builder with a fixed envelope, and the two activity shapes the helper
 * produces (plain text, or one card attachment).
 */
module CardHelper {
  import opened Wrappers

  /** The JSON values that card documents are made of. */
  datatype Json =
    | JString(str: string)
    | JBool(flag: bool)
    | JObject(fields: map<string, Json>)
    | JList(items: seq<Json>)

  type JsonObject = map<string, Json>

  // The enumerations of text-block attributes, each with the string value
  // the Adaptive Card schema expects.

  datatype Color = Default | Dark | Light | Accent | Good | Warning | Attention {
    function Value(): string {
      match this
      case Default => "default"
      case Dark => "dark"
      case Light => "light"
      case Accent => "accent"
      case Good => "good"
      case Warning => "warning"
      case Attention => "attention"
    }

    /** Distinct members carry distinct schema strings, so the string identifies the member. */
    lemma ValueInjective(other: Color)
      ensures Value() == other.Value() <==> this == other
    {
    }
  }

  datatype FontType = Default | Monospace {
    function Value(): string {
      match this
      case Default => "default"
      case Monospace => "monospace"
    }

    /** Distinct members carry distinct schema strings, so the string identifies the member. */
    lemma ValueInjective(other: FontType)
      ensures Value() == other.Value() <==> this == other
    {
    }
  }

  datatype TextStyle = Default | Heading {
    function Value(): string {
      match this
      case Default => "default"
      case Heading => "heading"
    }

    /** Distinct members carry distinct schema strings, so the string identifies the member. */
    lemma ValueInjective(other: TextStyle)
      ensures Value() == other.Value() <==> this == other
    {
    }
  }

  datatype FontSize = Default | Small | Medium | Large | ExtraLarge {
    function Value(): string {
      match this
      case Default => "default"
      case Small => "small"
      case Medium => "medium"
      case Large => "large"
      case ExtraLarge => "extraLarge"
    }

    /** Distinct members carry distinct schema strings, so the string identifies the member. */
    lemma ValueInjective(other: FontSize)
      ensures Value() == other.Value() <==> this == other
    {
    }
  }

  datatype FontWeight = Default | Lighter | Bolder {
    function Value(): string {
      match this
      case Default => "default"
      case Lighter => "lighter"
      case Bolder => "bolder"
    }

    /** Distinct members carry distinct schema strings, so the string identifies the member. */
    lemma ValueInjective(other: FontWeight)
      ensures Value() == other.Value() <==> this == other
    {
    }
  }

  datatype Spacing = Default | None | Small | Medium | Large | ExtraLarge | Padding {
    function Value(): string {
      match this
      case Default => "default"
      case None => "none"
      case Small => "small"
      case Medium => "medium"
      case Large => "large"
      case ExtraLarge => "extraLarge"
      case Padding => "padding"
    }

    /** Distinct members carry distinct schema strings, so the string identifies the member. */
    lemma ValueInjective(other: Spacing)
      ensures Value() == other.Value() <==> this == other
    {
    }
  }

  const SchemaUrl: string := "https://adaptivecards.io/schemas/adaptive-card.json"

  /** Every key a text block may carry. */
  const TextBlockKeys: set<string> :=
    {"type", "text", "wrap", "style", "color", "weight", "size", "spacing", "fontType"}

  /** `key` is present in `item` exactly when `value` is, and then holds that string. */
  predicate HasOptionalKey(item: JsonObject, key: string, value: Option<string>) {
    && (key in item <==> value.Some?)
    && (value.Some? ==> item[key] == JString(value.value))
  }

  /**
   * `item` is the document of a text block showing `text` (wrapped) with the
   * given optional attributes: a key for each attribute that is given, and
   * no other keys.
   */
  predicate IsTextBlockItem(
    item: JsonObject, text: string, style: Option<TextStyle>, color: Option<Color>,
    weight: Option<FontWeight>, size: Option<FontSize>, spacing: Option<Spacing>,
    fontType: Option<FontType>)
  {
    && item.Keys <= TextBlockKeys
    && "type" in item && item["type"] == JString("TextBlock")
    && "text" in item && item["text"] == JString(text)
    && "wrap" in item && item["wrap"] == JBool(true)
    && HasOptionalKey(item, "style", if style.Some? then Some(style.value.Value()) else Option.None)
    && HasOptionalKey(item, "color", if color.Some? then Some(color.value.Value()) else Option.None)
    && HasOptionalKey(item, "weight", if weight.Some? then Some(weight.value.Value()) else Option.None)
    && HasOptionalKey(item, "size", if size.Some? then Some(size.value.Value()) else Option.None)
    && HasOptionalKey(item, "spacing", if spacing.Some? then Some(spacing.value.Value()) else Option.None)
    && HasOptionalKey(item, "fontType", if fontType.Some? then Some(fontType.value.Value()) else Option.None)
  }

  /** A text block: the element document it was built with. */
  datatype TextBlock = TextBlock(item: JsonObject) {
    /** The block's document is exactly the object it was built with. */
    function Build(): (doc: Json)
      ensures doc.JObject? && doc.fields == item
    {
      JObject(item)
    }
  }

  /** Builds a text block, adding one key per attribute that is given. */
  method NewTextBlock(
    text: string, style: Option<TextStyle>, color: Option<Color>,
    weight: Option<FontWeight>, size: Option<FontSize>, spacing: Option<Spacing>,
    fontType: Option<FontType>)
    returns (block: TextBlock)
    ensures IsTextBlockItem(block.item, text, style, color, weight, size, spacing, fontType)
  {
    var item := map["type" := JString("TextBlock"), "text" := JString(text), "wrap" := JBool(true)];
    if style.Some? {
      item := item["style" := JString(style.value.Value())];
    }
    if color.Some? {
      item := item["color" := JString(color.value.Value())];
    }
    if weight.Some? {
      item := item["weight" := JString(weight.value.Value())];
    }
    if size.Some? {
      item := item["size" := JString(size.value.Value())];
    }
    if spacing.Some? {
      item := item["spacing" := JString(spacing.value.Value())];
    }
    if fontType.Some? {
      item := item["fontType" := JString(fontType.value.Value())];
    }
    block := TextBlock(item);
  }

  /** The text-block description pins the document down completely. */
  lemma TextBlockItemDetermined(
    a: JsonObject, b: JsonObject, text: string, style: Option<TextStyle>, color: Option<Color>,
    weight: Option<FontWeight>, size: Option<FontSize>, spacing: Option<Spacing>,
    fontType: Option<FontType>)
    requires IsTextBlockItem(a, text, style, color, weight, size, spacing, fontType)
    requires IsTextBlockItem(b, text, style, color, weight, size, spacing, fontType)
    ensures a == b
  {
    forall k | k in a
      ensures k in b && a[k] == b[k]
    {
      assert k in TextBlockKeys;
    }
    forall k | k in b
      ensures k in a
    {
      assert k in TextBlockKeys;
    }
  }

  /** The documents of `blocks`, in order. */
  function BuildAll(blocks: seq<TextBlock>): (built: seq<Json>)
    ensures |built| == |blocks|
    ensures forall i | 0 <= i < |blocks| :: built[i] == blocks[i].Build()
  {
    if blocks == [] then [] else [blocks[0].Build()] + BuildAll(blocks[1..])
  }

  /**
   * `card` is an Adaptive Card 1.5 envelope whose body is `body`: the fixed
   * type, schema and version keys, the body, and nothing else.
   */
  predicate IsCardEnvelope(card: JsonObject, body: seq<Json>) {
    && card.Keys == {"type", "$schema", "version", "body"}
    && card["type"] == JString("AdaptiveCard")
    && card["$schema"] == JString(SchemaUrl)
    && card["version"] == JString("1.5")
    && card["body"] == JList(body)
  }

  /** An ordered list of card elements that is turned into one card document. */
  class BaseCardBuilder {
    var body: seq<TextBlock>

    constructor ()
      ensures body == []
    {
      body := [];
    }

    /** Appends one element; returns the builder itself, for chaining. */
    method Add(item: TextBlock) returns (builder: BaseCardBuilder)
      modifies this
      ensures body == old(body) + [item]
      ensures builder == this
    {
      body := body + [item];
      builder := this;
    }

    /** The card document: the fixed envelope around the elements' documents, in insertion order. */
    function Build(): (card: JsonObject)
      reads this
      ensures "body" in card && card["body"].JList? && IsCardEnvelope(card, card["body"].items)
      ensures |card["body"].items| == |body|
      ensures forall i | 0 <= i < |body| :: card["body"].items[i] == body[i].Build()
    {
      map[
        "type" := JString("AdaptiveCard"),
        "$schema" := JString(SchemaUrl),
        "version" := JString("1.5"),
        "body" := JList(BuildAll(body))
      ]
    }
  }

  /** A card attachment; its content is the card document. */
  datatype Attachment = AdaptiveCardAttachment(content: JsonObject)

  /** A message activity: optional plain text and optional attachments. */
  datatype Activity = MessageActivity(text: Option<string>, attachments: Option<seq<Attachment>>)

  /**
   * The card of a titled simple message: exactly two blocks, a heading title
   * (bolder, large, coloured only when a colour is given) and then the text.
   */
  predicate IsTitledCard(card: JsonObject, title: string, titleColor: Option<Color>, text: string) {
    && "body" in card && card["body"].JList?
    && IsCardEnvelope(card, card["body"].items)
    && |card["body"].items| == 2
    && card["body"].items[0].JObject?
    && IsTextBlockItem(card["body"].items[0].fields, title, Some(TextStyle.Heading), titleColor,
                       Some(FontWeight.Bolder), Some(FontSize.Large), Option.None, Option.None)
    && card["body"].items[1].JObject?
    && IsTextBlockItem(card["body"].items[1].fields, text, Option.None, Option.None,
                       Option.None, Option.None, Option.None, Option.None)
  }

  /**
   * A message with a non-empty title becomes one card attachment holding a
   * title block and a text block; otherwise the message is plain text.
   */
  method SimpleMessage(text: string, title: Option<string>, titleColor: Option<Color>)
    returns (activity: Activity)
    ensures StrTruthy(title) ==>
      && activity.text.None?
      && activity.attachments.Some? && |activity.attachments.value| == 1
      && IsTitledCard(activity.attachments.value[0].content, title.value, titleColor, text)
    ensures !StrTruthy(title) ==> activity == MessageActivity(Some(text), Option.None)
  {
    var msg := new BaseCardBuilder();
    if StrTruthy(title) {
      var heading := NewTextBlock(title.value, Some(TextStyle.Heading), titleColor,
                                  Some(FontWeight.Bolder), Some(FontSize.Large), Option.None, Option.None);
      var _ := msg.Add(heading);
      var plain := NewTextBlock(text, Option.None, Option.None, Option.None, Option.None, Option.None, Option.None);
      var _ := msg.Add(plain);
      var card := msg.Build();
      activity := MessageActivity(Option.None, Some([AdaptiveCardAttachment(card)]));
    } else {
      activity := MessageActivity(Some(text), Option.None);
    }
  }

  /** A caller's card document becomes, unchanged, the single attachment of a message. */
  function Card(card: JsonObject): (activity: Activity)
    ensures activity.text.None?
    ensures activity.attachments.Some? && |activity.attachments.value| == 1
    ensures activity.attachments.value[0].content == card
  {
    MessageActivity(Option.None, Some([AdaptiveCardAttachment(card)]))
  }
}
