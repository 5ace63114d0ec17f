/** `Breadcrumb`: a Home link, then each item behind a separator, as a link or as plain text. */
module Breadcrumb {
  import opened Wrappers

  /** One item passed in: its text and an `href` that may be missing or empty. */
  datatype Crumb = Crumb(text: string, href: Option<string>)

  /** What is rendered, in order. */
  datatype Node = Separator | LinkNode(to: string, text: string) | TextNode(text: string, bold: bool)

  predicate HasHref(c: Crumb) {
    c.href.Some? && c.href.value != ""
  }

  /** Item `i`: a link when it has an href and is not the last item, otherwise text, bold only for the last. */
  function ItemNode(items: seq<Crumb>, i: nat): (n: Node)
    requires i < |items|
    ensures !n.Separator?
    ensures n.LinkNode? <==> HasHref(items[i]) && i != |items| - 1
    ensures n.LinkNode? ==> n.to == items[i].href.value
    ensures n.text == items[i].text
    ensures n.TextNode? ==> (n.bold <==> i == |items| - 1)
  {
    if HasHref(items[i]) && i != |items| - 1 then LinkNode(items[i].href.value, items[i].text)
    else TextNode(items[i].text, i == |items| - 1)
  }

  /** The nodes of items `k` onwards: each a separator followed by the item. */
  function RenderFrom(items: seq<Crumb>, k: nat): (r: seq<Node>)
    requires k <= |items|
    decreases |items| - k
    ensures |r| == 2 * (|items| - k)
    ensures forall i :: 0 <= i < |items| - k ==> r[2 * i] == Separator && r[2 * i + 1] == ItemNode(items, k + i)
  {
    if k == |items| then []
    else
      var rec := RenderFrom(items, k + 1);
      var r := [Separator, ItemNode(items, k)] + rec;
      forall i | 0 <= i < |items| - k
        ensures r[2 * i] == Separator && r[2 * i + 1] == ItemNode(items, k + i)
      {
        if i > 0 {
          assert r[2 * i] == rec[2 * (i - 1)] && r[2 * i + 1] == rec[2 * (i - 1) + 1];
          assert rec[2 * (i - 1) + 1] == ItemNode(items, k + 1 + (i - 1));
        }
      }
      r
  }

  /** The whole trail: Home first, then every item in order behind exactly one separator. */
  function Render(items: seq<Crumb>): (r: seq<Node>)
    ensures |r| == 1 + 2 * |items|
    ensures r[0] == LinkNode("/", "Home")
    ensures forall i :: 0 <= i < |items| ==> r[1 + 2 * i] == Separator && !r[2 + 2 * i].Separator? && r[2 + 2 * i].text == items[i].text
    ensures forall i :: 0 <= i < |items| ==> (r[2 + 2 * i].LinkNode? <==> HasHref(items[i]) && i != |items| - 1)
    ensures forall i :: 0 <= i < |items| && r[2 + 2 * i].LinkNode? ==> HasHref(items[i]) && r[2 + 2 * i].to == items[i].href.value
    ensures forall i :: 0 <= i < |items| && r[2 + 2 * i].TextNode? ==> (r[2 + 2 * i].bold <==> i == |items| - 1)
    ensures items != [] ==> r[|r| - 1] == TextNode(items[|items| - 1].text, true)
  {
    var rest := RenderFrom(items, 0);
    var r := [LinkNode("/", "Home")] + rest;
    forall i | 0 <= i < |items|
      ensures r[1 + 2 * i] == Separator && r[2 + 2 * i] == ItemNode(items, i)
    {
      assert r[1 + 2 * i] == rest[2 * i] && r[2 + 2 * i] == rest[2 * i + 1];
      assert rest[2 * i + 1] == ItemNode(items, 0 + i);
    }
    r
  }
}
