/**
 * Normalisation of a tool host's `call_tool` response to one text, resolving the response's
 * dynamic shape once: no `content` attribute, text content, a list of content items, or any
 * other content.
 */
module Normalise {
  import opened Text

  /** One element of a list-valued `content`: it has a `text` attribute, or only its `str()`. */
  datatype ContentItem = TextItem(text: string) | OtherItem(repr: string)

  /** The `content` attribute of a response, by its runtime type; `repr` is its `str()`. */
  datatype ResultContent =
    | StrContent(text: string)
    | ItemList(items: seq<ContentItem>)
    | OtherContent(repr: string)

  /** A `call_tool` response: with a `content` attribute, or without one (`repr` is its `str()`). */
  datatype ToolResult = WithContent(content: ResultContent) | WithoutContent(repr: string)

  const Newline := "\n"

  /** `item.text` if the item has one, otherwise `str(item)`. */
  function ItemText(item: ContentItem): string
  {
    match item
    case TextItem(t) => t
    case OtherItem(repr) => repr
  }

  /** The `texts` list built from a list-valued content, one entry per item in list order. */
  function ItemTexts(items: seq<ContentItem>): (texts: seq<string>)
    ensures |texts| == |items|
    ensures forall k :: 0 <= k < |items| ==>
      texts[k] == (if items[k].TextItem? then items[k].text else items[k].repr)
  {
    if items == [] then [] else ItemTexts(items[..|items| - 1]) + [ItemText(items[|items| - 1])]
  }

  /** The text recorded for a successful tool call. */
  function ResultText(result: ToolResult): (text: string)
    ensures result.WithContent? && result.content.ItemList? && result.content.items == [] ==> text == ""
    ensures result.WithContent? && result.content.ItemList? && |result.content.items| == 1 ==>
      text == ItemText(result.content.items[0])
  {
    match result
    case WithoutContent(repr) => repr
    case WithContent(StrContent(text)) => text
    case WithContent(ItemList(items)) => Join(ItemTexts(items), Newline)
    case WithContent(OtherContent(repr)) => repr
  }

  /** Computes the result text, collecting the item texts of a list-valued content in a loop. */
  method NormaliseResult(result: ToolResult) returns (text: string)
    ensures text == ResultText(result)
  {
    if result.WithContent? {
      var content := result.content;
      if content.StrContent? {
        text := content.text;
      } else if content.ItemList? {
        var texts: seq<string> := [];
        for i := 0 to |content.items|
          invariant texts == ItemTexts(content.items[..i])
        {
          var item := content.items[i];
          if item.TextItem? {
            texts := texts + [item.text];
          } else {
            texts := texts + [item.repr];
          }
          assert content.items[..i + 1][..i] == content.items[..i];
        }
        assert content.items[..|content.items|] == content.items;
        text := Join(texts, Newline);
      } else {
        text := content.repr;
      }
    } else {
      text := result.repr;
    }
  }

  /** Text content is recorded verbatim; other content and a response without content by their `str()`. */
  lemma ResultTextOfScalar(result: ToolResult)
    requires !(result.WithContent? && result.content.ItemList?)
    ensures result.WithoutContent? ==> ResultText(result) == result.repr
    ensures result.WithContent? && result.content.StrContent? ==> ResultText(result) == result.content.text
    ensures result.WithContent? && result.content.OtherContent? ==> ResultText(result) == result.content.repr
  {
  }

  /** A list of items whose texts hold no newline reads back, line by line, as the item texts in order. */
  lemma ResultTextLines(items: seq<ContentItem>)
    requires |items| >= 1
    requires forall k :: 0 <= k < |items| ==> '\n' !in ItemText(items[k])
    ensures Split(ResultText(WithContent(ItemList(items))), '\n') == ItemTexts(items)
  {
    var texts := ItemTexts(items);
    forall k | 0 <= k < |texts| ensures '\n' !in texts[k] {
      assert texts[k] == ItemText(items[k]);
    }
    SplitJoin(texts, '\n');
  }

  /** Concatenating two item lists joins their texts with one newline between them. */
  lemma {:induction false} ItemListConcat(a: seq<ContentItem>, b: seq<ContentItem>)
    requires |a| >= 1 && |b| >= 1
    ensures ResultText(WithContent(ItemList(a + b)))
         == ResultText(WithContent(ItemList(a))) + "\n" + ResultText(WithContent(ItemList(b)))
  {
    var ta, tb, tab := ItemTexts(a), ItemTexts(b), ItemTexts(a + b);
    assert tab == ta + tb;
    JoinConcat(ta, tb, Newline);
  }
}
