# RSSCreator: an RSS 1.0 serialiser, modelled in Dafny

`RSSCreator` is a small PHP builder for RSS 1.0 (RDF Site Summary 1.0)
documents. It covers the core syntax of that format: `channel`, `image`,
`items`/`rdf:Seq` and `item`. The builder keeps three pieces of state:

- an ordered list of items, which `addItem` and `addDataSource` append to;
- an optional channel record, which `addChannel` replaces;
- an optional image record, which `addImage` replaces.

`get` renders the state as one string: the XML header, the channel element,
the image element, one element per item, and the closing `</rdf:RDF>`.

The model has three files:

- `wrappers.dfy`: the `Option` type used for the channel and the image.
- `rss_document.dfy` (module `RssDocument`):
  - the records `Item`, `Channel`, `Image` and `ChannelArgs`, and the builder state as a value, `Feed`;
  - the renderer as pure functions: `Header`, `ChannelOpen`, `ImageRef`, `ItemsSection`, `ChannelBlock`, `ImageBlock`, `ItemBlock`, `ItemsBlock`, `Render`;
  - the lemmas about the renderer.
- `rss_creator.dfy` (module `Builder`): the class `RssCreator`.
  - It has the fields `items`, `channel` and `image`, and the methods that update them in place.
  - `getChannel` and `getItems` become methods. Like the PHP, they build their text by appending to a string inside a loop. Each is proved equal to its functional specification.
  - `getHeader` and `getImage` are single string expressions, so they are the functions `Header` and `ImageBlock`.

Both loops have one shape: append one block per item, in order. That shape
is `ConcatMap(render, items)`. The `rdf:Seq` list is `ConcatMap(SeqEntry, items)`.
The item elements are `ConcatMap(ItemBlock, items)`. `Blocks(render, items)`
is the same text as a list of blocks. The lemmas use it to show that the two
parts of the document have one block per item each, in the same order.

Behaviour reproduced from the code:

- The markup is copied exactly from the string literals, including their embedded line breaks:
  - the header has a line break after the XML declaration and another at its end;
  - the items section opens with a space, `" <items>\n<rdf:Seq>"`;
  - the image element and the item elements have no separator between them.
- Without an image, both image parts are empty. Without items, the `items`/`rdf:Seq` section is empty.
- `addChannel` takes the channel's `about` from the argument's `url` key, not from `about` as the doc-comment says. `ChannelArgs` has both keys, and `AddChannel` ignores `about`. This model follows the code.
- The PHP initialiser is misnamed `_construct`, so PHP never runs it. The constructor models the intended initial state instead: no items, no channel and no image.
- `get` reads the channel without checking it is set. An unset channel therefore renders with four empty fields. The model uses `UnsetChannel` for this.
- `get` changes nothing. `Get` has no `modifies` clause, and `RenderTwiceScenario` shows that two calls in a row return the same string.
- `UsageScenario` shows a caller's view of the updates: a second `AddChannel` replaces the first, and `AddDataSource` and `AddItem` keep their order.

## Model

| member | source | states |
|---|---|---|
| `Builder.RssCreator.constructor` | source/core/classes/rsscreator/RSSCreator.php:43-45 | the new builder has no items, no channel and no image (the intended effect of the misnamed initialiser) |
| `Builder.RssCreator.AddDataSource` | source/core/classes/rsscreator/RSSCreator.php:50-55 | the new item list is the old list followed by every element of the data source, in order; channel and image unchanged |
| `Builder.RssCreator.AddChannel` | source/core/classes/rsscreator/RSSCreator.php:57-64 | the channel becomes the argument's record, whatever was set before; its `about` is the argument's `url`, and the argument's `about` is ignored; items and image unchanged |
| `Builder.RssCreator.AddImage` | source/core/classes/rsscreator/RSSCreator.php:66-72 | the image becomes the argument's record, whatever was set before; items and channel unchanged |
| `Builder.RssCreator.AddItem` | source/core/classes/rsscreator/RSSCreator.php:74-76 | the new item list is the old one with the item appended; channel and image unchanged |
| `Builder.RssCreator.Get` | source/core/classes/rsscreator/RSSCreator.php:79-87 | returns the rendering of the current state (header, channel, image, items, closing tag) and, having no modifies clause, changes nothing |
| `Builder.RssCreator.GetChannel` | source/core/classes/rsscreator/RSSCreator.php:98-126 | the string built by the loop that appends one `rdf:li` per item equals the channel element of the current state |
| `Builder.RssCreator.GetItems` | source/core/classes/rsscreator/RSSCreator.php:141-151 | the string built by the loop that appends one item element per item equals the in-order item elements of the current item list |
| `RssDocument.Header` | source/core/classes/rsscreator/RSSCreator.php:92-96 | no contract; its definition is the literal at :93-94, character for character, with the two namespace URIs named as constants |
| `RssDocument.Render` | source/core/classes/rsscreator/RSSCreator.php:79-87 | no contract; its definition is the five-part concatenation of :81-85 (header, channel, image, items, `</rdf:RDF>`); its properties are the `Render...` lemmas below |
| `RssDocument.Footer` | source/core/classes/rsscreator/RSSCreator.php:85 | no contract; its definition is the closing literal `</rdf:RDF>` at :85 |
| `RssDocument.ConcatMap` | source/core/classes/rsscreator/RSSCreator.php:141-151 | no contract; the text a loop builds by appending `render(item)` for each item in order. It specifies both `.=` loops, the `rdf:li` loop at :114-116 and the item loop at :143-149; its properties are the `ConcatMap...` lemmas below |
| `RssDocument.SeqEntries` | source/core/classes/rsscreator/RSSCreator.php:114-116 | no contract; the text the `rdf:li` loop at :114-116 builds, one `SeqEntry` per item in order, with no separator |
| `RssDocument.ChannelBlock` | source/core/classes/rsscreator/RSSCreator.php:98-126 | no contract; its definition is the channel opening, the image reference, the items section and `</channel>\n`, in the order of :100-123 |
| `RssDocument.ChannelOpen` | source/core/classes/rsscreator/RSSCreator.php:100-103 | no contract; its definition is the literal at :100-103, character for character |
| `RssDocument.SeqEntry` | source/core/classes/rsscreator/RSSCreator.php:115 | no contract; its definition is the `rdf:li` literal at :115, which refers to the item's link |
| `RssDocument.ItemBlock` | source/core/classes/rsscreator/RSSCreator.php:144-148 | no contract; its definition is the literal at :144-148, character for character, with no separator before or after it |
| `RssDocument.ChannelOrUnset` | source/core/classes/rsscreator/RSSCreator.php:100-103 | no contract; gives the set channel, or `UnsetChannel` (four empty fields) when none is set, as PHP's unchecked reads at :100-103 give "" |
| `RssDocument.ImageRef` | source/core/classes/rsscreator/RSSCreator.php:105-108 | the channel's image reference is empty exactly when no image is set |
| `RssDocument.ItemsSection` | source/core/classes/rsscreator/RSSCreator.php:110-120 | the channel's `items`/`rdf:Seq` section is empty exactly when the item list is empty |
| `RssDocument.ImageBlock` | source/core/classes/rsscreator/RSSCreator.php:128-139 | the standalone image element is empty exactly when no image is set |
| `RssDocument.ItemsBlock` | source/core/classes/rsscreator/RSSCreator.php:141-151 | the item elements are empty exactly when the item list is empty |
| `RssDocument.ConcatMapAppend` | source/core/classes/rsscreator/RSSCreator.php:141-151 | the text built for a concatenated item list is the text for the first part followed by the text for the second |
| `RssDocument.ConcatMapSnoc` | source/core/classes/rsscreator/RSSCreator.php:143-149 | one more loop step appends exactly the new item's block at the end of the text |
| `RssDocument.ConcatMapAsList` | source/core/classes/rsscreator/RSSCreator.php:141-151 | the text the loop builds is the concatenation of the list of per-item blocks, in item order |
| `RssDocument.OnePerItem` | source/core/classes/rsscreator/RSSCreator.php:111-151 | the `rdf:Seq` entries and the item elements are each the in-order concatenation of one block per item; the two block lists are as long as the item list, and block i of each is built from item i |
| `RssDocument.ItemsSectionShape` | source/core/classes/rsscreator/RSSCreator.php:111-120 | empty list: no items section; otherwise the items section is the `rdf:Seq` wrapper around the list of `rdf:li` entries, one per item, in order |
| `RssDocument.RenderFrame` | source/core/classes/rsscreator/RSSCreator.php:79-96 | every document begins with the fixed XML declaration and root header and ends with `</rdf:RDF>` |
| `RssDocument.RenderUnsetChannel` | source/core/classes/rsscreator/RSSCreator.php:100-103 | with no channel set, the document is the one for a channel whose four fields are empty strings |
| `RssDocument.RenderImageSections` | source/core/classes/rsscreator/RSSCreator.php:105-138 | with no image, neither the channel's image reference nor the image element appears; with an image, both are present and built from its url, and every other part stays as it was |
| `RssDocument.RenderAddItem` | source/core/classes/rsscreator/RSSCreator.php:74-87 | after an item is added, the next document lists it last in the `rdf:Seq` and renders its element last before the closing tag; earlier entries and elements are unchanged |

## Left out

- XML escaping and well-formedness: the source escapes no field values, so the model concatenates them as they are. It does not prove that the output is valid XML.
- RenderImageSections: "no `<image rdf:resource=...>` without an image" is stated by the structure of the document, not as "the output contains no such text". Unescaped field values may contain that text themselves.
- The suggested RSS 0.91 length limits in the doc-comment: the code never enforces them.
- The optional `<textInput>` element: the source does not support it.
- PHP runtime details. Associative arrays become typed records with string fields, and a missing key reads as "". The constructor models the intended initial state. As written, the misnamed `_construct` never runs, so `$this->items` is never initialised. Then `array_push` at :53 and :75 appends nothing (a warning in PHP 4 to 7, a TypeError in PHP 8), so the program as written never renders an item. `get` then calls `count` on the null property at :111 and :143: PHP 7.2 to 7.4 warns and counts 0, and PHP 8 throws a TypeError, so `get` returns no document at all. The bare-constant keys at :59-70 (`about`, `title`, `link`, `url`, ...) raise a notice in older PHP and throw an Error in PHP 8. The model follows the intended behaviour in both cases. The data source of `addDataSource` is taken to be a list, as the comment at :51 assumes. The loop at :52-53 reads the keys 0 to count-1. A PHP array with other keys would push nulls, which render as empty items, and skip its entries at the other keys. The `seq<Item>` parameter rules this out.
- Where the output goes (an HTTP response or a file) is outside this component. The model's only interface is the method calls and the returned string.
