/**
  The RSS 1.0 document that `RSSCreator::get` produces, as a pure function
  of the builder's state. The markup text is that of the PHP string
  literals, character for character, including their embedded line breaks;
  field values are concatenated unescaped, as in the source.
 */
module RssDocument {
  import opened Wrappers

  /** One feed entry: the 'title', 'link' and 'description' keys of a PHP item array. */
  datatype Item = Item(title: string, link: string, description: string)

  /** The channel record that `addChannel` stores. */
  datatype Channel = Channel(about: string, title: string, link: string, description: string)

  /** The image record that `addImage` stores (keys title, link, url). */
  datatype Image = Image(title: string, link: string, url: string)

  /**
    The array a caller hands to `addChannel`. The doc-comment asks for an
    'about' key, but the code reads 'url' instead; a missing key reads as "".
   */
  datatype ChannelArgs = ChannelArgs(about: string, url: string, title: string, link: string, description: string)

  /** Everything `get` reads: the item list and the optional channel and image. */
  datatype Feed = Feed(items: seq<Item>, channel: Option<Channel>, image: Option<Image>)

  /** The state of a freshly built creator: no items, no channel, no image. */
  const EmptyFeed: Feed := Feed([], None, None)

  /** How an unset channel renders: PHP reads every field of it as the empty string. */
  const UnsetChannel: Channel := Channel("", "", "", "")

  /** The channel that `getChannel` reads. */
  function ChannelOrUnset(channel: Option<Channel>): Channel {
    channel.GetOr(UnsetChannel)
  }

  /** Concatenation of a list of text blocks, in list order. */
  function Concat(parts: seq<string>): string {
    if parts == [] then "" else parts[0] + Concat(parts[1..])
  }

  /**
    The text that a loop over `items` builds by appending `render(item)` for
    each item in turn, as `getChannel` and `getItems` do.
   */
  function ConcatMap(render: Item -> string, items: seq<Item>): string {
    if items == [] then "" else render(items[0]) + ConcatMap(render, items[1..])
  }

  /** The blocks `render` gives for each item, as a list. */
  function Blocks(render: Item -> string, items: seq<Item>): seq<string> {
    seq(|items|, i requires 0 <= i < |items| => render(items[i]))
  }

  // ---------------------------------------------------------------------
  // The pieces of the document
  // ---------------------------------------------------------------------

  /** The RDF syntax namespace bound to the `rdf` prefix. */
  const RdfNamespace: string := "http://www.w3.org/1999/02/22-rdf-syntax-ns#"

  /** The RSS 1.0 namespace, the document's default namespace. */
  const RssNamespace: string := "http://purl.org/rss/1.0/"

  /** `getHeader`: the XML declaration and the opening root element. */
  function Header(): string {
    "<?xml version=\"1.0\"?>\n<rdf:RDF xmlns:rdf=\"" + RdfNamespace + "\" xmlns=\"" + RssNamespace + "\">\n"
  }

  /** The closing tag `get` appends last. */
  function Footer(): string {
    "</rdf:RDF>"
  }

  /** The opening of the channel element with its three text children. */
  function ChannelOpen(c: Channel): string {
    "<channel rdf:about=\"" + c.about + "\">\n<title>" + c.title + "</title>\n<link>" + c.link
      + "</link>\n<description>" + c.description + "</description>"
  }

  /** The channel's reference to the image, present exactly when an image is set. */
  function ImageRef(image: Option<Image>): (r: string)
    ensures r == "" <==> image.None?
  {
    if image.Some? then "<image rdf:resource=\"" + image.value.url + "\"/>" else ""
  }

  /** One entry of the channel's `rdf:Seq` list: a reference to the item's link. */
  function SeqEntry(item: Item): string {
    "<rdf:li resource=\"" + item.link + "\"/>"
  }

  /** The `rdf:li` entries for a list of items. */
  function SeqEntries(items: seq<Item>): string {
    ConcatMap(SeqEntry, items)
  }

  /** The `items`/`rdf:Seq` section of the channel, present exactly when there are items. */
  function ItemsSection(items: seq<Item>): (r: string)
    ensures r == "" <==> items == []
  {
    if |items| > 0 then " <items>\n<rdf:Seq>" + SeqEntries(items) + "</rdf:Seq>\n</items>\n" else ""
  }

  /** `getChannel`: the whole channel element. */
  function ChannelBlock(c: Channel, image: Option<Image>, items: seq<Item>): string {
    ChannelOpen(c) + ImageRef(image) + ItemsSection(items) + "</channel>\n"
  }

  /** `getImage`: the standalone image element, or nothing when no image is set. */
  function ImageBlock(image: Option<Image>): (r: string)
    ensures r == "" <==> image.None?
  {
    if image.Some? then
      "<image rdf:about=\"" + image.value.url + "\">\n<title>" + image.value.title + "</title>\n<link>"
        + image.value.link + "</link>\n<url>" + image.value.url + "</url>\n</image>"
    else ""
  }

  /** The full element for one item, with no separator before or after it. */
  function ItemBlock(item: Item): string {
    "<item rdf:about=\"" + item.link + "\">\n<title>" + item.title + "</title>\n<link>" + item.link
      + "</link>\n<description>" + item.description + "</description>\n</item>"
  }

  /** `getItems`: the item elements for a list of items. */
  function ItemsBlock(items: seq<Item>): (r: string)
    ensures r == "" <==> items == []
  {
    ConcatMap(ItemBlock, items)
  }

  /** `get`: header, channel, image, items and the closing tag. */
  function Render(f: Feed): string {
    Header() + ChannelBlock(ChannelOrUnset(f.channel), f.image, f.items) + ImageBlock(f.image)
      + ItemsBlock(f.items) + Footer()
  }

  // ---------------------------------------------------------------------
  // Regrouping concatenations (stated over arbitrary strings, so that the
  // markup text never has to be compared character by character)
  // ---------------------------------------------------------------------

  lemma AppendEmpty(s: string)
    ensures s + "" == s && "" + s == s
  {
  }

  lemma Regroup3(a: string, b: string, c: string)
    ensures a + b + c == a + (b + c)
  {
  }

  lemma Regroup5(a: string, b: string, c: string, d: string, e: string)
    ensures a + (b + c + d + e) == a + b + c + d + e
  {
  }

  lemma PrefixSuffix(h: string, m: string, t: string)
    ensures h <= h + m + t
    ensures |h + m + t| >= |h| + |t|
    ensures (h + m + t)[|h + m + t| - |t|..] == t
  {
  }

  // ---------------------------------------------------------------------
  // Lemmas
  // ---------------------------------------------------------------------

  /** The text for a concatenated list is the text for each part, in order. */
  lemma {:induction false} ConcatMapAppend(render: Item -> string, a: seq<Item>, b: seq<Item>)
    ensures ConcatMap(render, a + b) == ConcatMap(render, a) + ConcatMap(render, b)
  {
    if a == [] {
      assert a + b == b;
    } else {
      assert (a + b)[1..] == a[1..] + b;
      ConcatMapAppend(render, a[1..], b);
    }
  }

  /** One more loop step appends the new item's block at the end. */
  lemma ConcatMapSnoc(render: Item -> string, items: seq<Item>, x: Item)
    ensures ConcatMap(render, items + [x]) == ConcatMap(render, items) + render(x)
  {
    ConcatMapAppend(render, items, [x]);
    assert [x][1..] == [];
  }

  /** The loop's text is the concatenation of one block per item, in item order. */
  lemma {:induction false} ConcatMapAsList(render: Item -> string, items: seq<Item>)
    ensures ConcatMap(render, items) == Concat(Blocks(render, items))
  {
    if items != [] {
      assert Blocks(render, items)[1..] == Blocks(render, items[1..]);
      ConcatMapAsList(render, items[1..]);
    }
  }

  /**
    The channel's `rdf:Seq` list and the item elements replay the same item
    list: each is the in-order concatenation of one block per item, the two
    block lists are as long as the item list, and block i of each is built
    from item i.
   */
  lemma OnePerItem(items: seq<Item>)
    ensures SeqEntries(items) == Concat(Blocks(SeqEntry, items))
    ensures ItemsBlock(items) == Concat(Blocks(ItemBlock, items))
    ensures |Blocks(SeqEntry, items)| == |Blocks(ItemBlock, items)| == |items|
    ensures forall i :: 0 <= i < |items| ==>
      Blocks(SeqEntry, items)[i] == SeqEntry(items[i]) && Blocks(ItemBlock, items)[i] == ItemBlock(items[i])
  {
    ConcatMapAsList(SeqEntry, items);
    ConcatMapAsList(ItemBlock, items);
  }

  /**
    The channel's items section: absent for an empty list, otherwise the
    `rdf:Seq` wrapper around one `rdf:li` entry per item, in list order.
   */
  lemma ItemsSectionShape(items: seq<Item>)
    ensures items == [] ==> ItemsSection(items) == ""
    ensures items != [] ==>
      ItemsSection(items) == " <items>\n<rdf:Seq>" + Concat(Blocks(SeqEntry, items)) + "</rdf:Seq>\n</items>\n"
  {
    ConcatMapAsList(SeqEntry, items);
  }

  /** The document begins with the fixed header and ends with the closing root tag. */
  lemma RenderFrame(f: Feed)
    ensures Header() <= Render(f)
    ensures |Render(f)| >= |Header()| + |Footer()|
    ensures Render(f)[|Render(f)| - |Footer()|..] == "</rdf:RDF>"
  {
    var channel := ChannelBlock(ChannelOrUnset(f.channel), f.image, f.items);
    Regroup5(Header(), channel, ImageBlock(f.image), ItemsBlock(f.items), Footer());
    PrefixSuffix(Header(), channel + ImageBlock(f.image) + ItemsBlock(f.items), Footer());
  }

  /** An unset channel renders exactly as a channel whose four fields are empty. */
  lemma RenderUnsetChannel(f: Feed)
    requires f.channel.None?
    ensures Render(f) == Render(f.(channel := Some(Channel("", "", "", ""))))
  {
  }

  /**
    The document with and without an image: setting one inserts exactly the
    channel's image reference and the standalone image element, both built
    from the image's url, and leaves every other part as it was.
   */
  lemma RenderImageSections(f: Feed, img: Image)
    ensures Render(f.(image := None)) ==
      Header() + (ChannelOpen(ChannelOrUnset(f.channel)) + ItemsSection(f.items) + "</channel>\n")
        + ItemsBlock(f.items) + Footer()
    ensures Render(f.(image := Some(img))) ==
      Header() + (ChannelOpen(ChannelOrUnset(f.channel)) + ("<image rdf:resource=\"" + img.url + "\"/>")
        + ItemsSection(f.items) + "</channel>\n")
        + ("<image rdf:about=\"" + img.url + "\">\n<title>" + img.title + "</title>\n<link>"
          + img.link + "</link>\n<url>" + img.url + "</url>\n</image>")
        + ItemsBlock(f.items) + Footer()
  {
    var open := ChannelOpen(ChannelOrUnset(f.channel));
    AppendEmpty(open);
    AppendEmpty(Header() + ChannelBlock(ChannelOrUnset(f.channel), None, f.items));
  }

  /**
    Adding an item after rendering: the next document lists the new item
    last in the channel's `rdf:Seq` and renders its element last, just before
    the closing tag; every earlier entry and element is unchanged.
   */
  lemma RenderAddItem(f: Feed, x: Item)
    ensures Render(f.(items := f.items + [x])) ==
      Header()
        + (ChannelOpen(ChannelOrUnset(f.channel)) + ImageRef(f.image)
          + (" <items>\n<rdf:Seq>" + (SeqEntries(f.items) + SeqEntry(x)) + "</rdf:Seq>\n</items>\n")
          + "</channel>\n")
        + ImageBlock(f.image) + (ItemsBlock(f.items) + ItemBlock(x)) + Footer()
  {
    ConcatMapSnoc(SeqEntry, f.items, x);
    ConcatMapSnoc(ItemBlock, f.items, x);
  }
}
