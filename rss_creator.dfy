/**
  The stateful builder `RSSCreator`: an ordered item list and an optional
  channel and image record, updated in place by the `add...` methods, and a
  `Get` that renders them without changing anything.
 */
module Builder {
  import opened Wrappers
  import opened RssDocument

  class RssCreator {
    var items: seq<Item>
    var channel: Option<Channel>
    var image: Option<Image>

    /** The builder's state as a value. */
    function State(): Feed
      reads this
    {
      Feed(items, channel, image)
    }

    /** The intended initial state (the PHP initialiser is misnamed `_construct`). */
    constructor ()
      ensures State() == EmptyFeed
    {
      items := [];
      channel := None;
      image := None;
    }

    /** Appends every item of `dataSource`, in order, one at a time. */
    method AddDataSource(dataSource: seq<Item>)
      modifies this
      ensures items == old(items) + dataSource
      ensures channel == old(channel) && image == old(image)
    {
      for i := 0 to |dataSource|
        invariant items == old(items) + dataSource[..i]
        invariant channel == old(channel) && image == old(image)
      {
        assert dataSource[..i + 1] == dataSource[..i] + [dataSource[i]];
        items := items + [dataSource[i]];
      }
      assert dataSource[..|dataSource|] == dataSource;
    }

    /** Replaces any channel record; its `about` is taken from the argument's `url`. */
    method AddChannel(args: ChannelArgs)
      modifies this
      ensures channel == Some(Channel(args.url, args.title, args.link, args.description))
      ensures items == old(items) && image == old(image)
    {
      channel := Some(Channel(args.url, args.title, args.link, args.description));
    }

    /** Replaces any image record. */
    method AddImage(img: Image)
      modifies this
      ensures image == Some(img)
      ensures items == old(items) && channel == old(channel)
    {
      image := Some(Image(img.title, img.link, img.url));
    }

    /** Appends one item. */
    method AddItem(item: Item)
      modifies this
      ensures items == old(items) + [item]
      ensures channel == old(channel) && image == old(image)
    {
      items := items + [item];
    }

    /** The channel element, built by appending to a string as `getChannel` does. */
    method GetChannel() returns (block: string)
      ensures block == ChannelBlock(ChannelOrUnset(channel), image, items)
    {
      var c := ChannelOrUnset(channel);
      block := "<channel rdf:about=\"" + c.about + "\">\n<title>" + c.title + "</title>\n<link>" + c.link
        + "</link>\n<description>" + c.description + "</description>";
      if image.Some? {
        block := block + ("<image rdf:resource=\"" + image.value.url + "\"/>");
      } else {
        AppendEmpty(block);
      }
      ghost var head := block;
      assert head == ChannelOpen(c) + ImageRef(image);
      if |items| > 0 {
        block := block + " <items>\n<rdf:Seq>";
        ghost var listStart := block;
        for i := 0 to |items|
          invariant block == listStart + SeqEntries(items[..i])
        {
          assert items[..i + 1] == items[..i] + [items[i]];
          ConcatMapSnoc(SeqEntry, items[..i], items[i]);
          Regroup3(listStart, SeqEntries(items[..i]), SeqEntry(items[i]));
          block := block + ("<rdf:li resource=\"" + items[i].link + "\"/>");
        }
        assert items[..|items|] == items;
        block := block + "</rdf:Seq>\n</items>\n";
        Regroup5(head, " <items>\n<rdf:Seq>", SeqEntries(items), "</rdf:Seq>\n</items>\n", "");
        AppendEmpty(" <items>\n<rdf:Seq>" + SeqEntries(items) + "</rdf:Seq>\n</items>\n");
        AppendEmpty(head + " <items>\n<rdf:Seq>" + SeqEntries(items) + "</rdf:Seq>\n</items>\n");
      } else {
        AppendEmpty(block);
      }
      assert block == head + ItemsSection(items);
      block := block + "</channel>\n";
    }

    /** The item elements, built by appending to a string as `getItems` does. */
    method GetItems() returns (block: string)
      ensures block == ItemsBlock(items)
    {
      block := "";
      for i := 0 to |items|
        invariant block == ItemsBlock(items[..i])
      {
        assert items[..i + 1] == items[..i] + [items[i]];
        ConcatMapSnoc(ItemBlock, items[..i], items[i]);
        block := block + ("<item rdf:about=\"" + items[i].link + "\">\n<title>" + items[i].title
          + "</title>\n<link>" + items[i].link + "</link>\n<description>" + items[i].description
          + "</description>\n</item>");
      }
      assert items[..|items|] == items;
    }

    /** The whole document; reads the builder and changes nothing. */
    method Get() returns (doc: string)
      ensures doc == Render(State())
    {
      doc := "";
      AppendEmpty(Header());
      doc := doc + Header();
      var channelBlock := GetChannel();
      doc := doc + channelBlock;
      doc := doc + ImageBlock(image);
      var itemsBlock := GetItems();
      doc := doc + itemsBlock;
      doc := doc + Footer();
    }
  }

  /** A caller's view: a second `AddChannel` replaces the first, and appends keep their order. */
  method UsageScenario(a: Item, b: Item, first: ChannelArgs, second: ChannelArgs, img: Image) {
    var rss := new RssCreator();
    rss.AddChannel(first);
    rss.AddChannel(second);
    rss.AddDataSource([a]);
    rss.AddImage(img);
    rss.AddItem(b);
    assert rss.State() == Feed([a, b], Some(Channel(second.url, second.title, second.link, second.description)), Some(img));
  }

  /** A caller's view: rendering twice with no update in between gives the same document. */
  method RenderTwiceScenario(rss: RssCreator, x: Item) returns (first: string, second: string, third: string)
    modifies rss
  {
    first := rss.Get();
    second := rss.Get();
    assert first == second;
    ghost var before := rss.State();
    rss.AddItem(x);
    third := rss.Get();
    assert third == Render(before.(items := before.items + [x]));
  }
}
