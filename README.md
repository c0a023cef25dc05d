# md4c renderers, modelled in Dafny

The Python bindings of md4c hand a Markdown document to the C engine, which
reports it as a stream of callbacks: enter a block or span tag, leave it, or
here is some text. A renderer turns that stream into output. This project
models the part that is pure Python:

- **Event vocabulary** (`Enums`, `Flags`): the `Block`, `Span`, `Text` and
  `Align` enumerations with their ordinals and names, and the feature flags
  and dialect presets as 32-bit masks.
- **Callback wrappers** (`Wraps`): how a raw callback becomes a call of the
  renderer. The ordinal becomes an enumeration member (or `ValueError`). A
  detail structure is passed only for the tags in the detail tables, and
  only when the engine's pointer is not null. Text is cut to `size` bytes.
  An attribute's text is not: the handlers take it as the `c_char_p` read
  gives it, up to the first NUL, and never read its `size`.
- **Dispatcher** (`Dispatch`, class `Base`):
  - the effective flags are the caller's flags OR the `flags` of every
    `Base` subclass on the method resolution order;
  - a tag's handler is `_parse_<name>` with trailing underscores stripped,
    and a tag without a handler is ignored;
  - every leave pops once.
- **Tree renderer** (`HtmlRender`, class `Html`): a stack of open elements
  whose bottom is the document root.
  - Entering a tag pushes an element.
  - Leaving a tag pops the top element and appends it to the element below.
  - Text is appended to the top element.
  - The class keeps the root's children, whether the root is still on the
    stack, and the elements above it. `Tags` gives the stack as the Python
    code sees it.
  - `HtmlTree` says which document a pass builds. The engine walks the
    parsed document as a tree. `Markup` is that tree, `EventsOf` the
    callbacks of the walk, and `BuiltOf` the element tree the markup stands
    for, defined on the tree alone. The stack builds exactly that tree.
- **Terminal renderer** (`AnsiRender`, class `Ansi`): three lists.
  - The buffer collects output pieces.
  - A stack holds the pieces that close the open tags.
  - The list details seen so far are kept in order; nothing removes them.
  - `get` joins the buffer, strips leading whitespace and newlines, and
    empties the buffer.

Each class's methods are proved against a pure specification: `AddSpec`,
`NewSpec`, `FinSpec`, `EnterSpec`, `GetSpec` and so on. `Run` applies a
stream of callbacks, and `Render` models `get`. An exception raised by a
callback is an outcome: `Fail(IndexError)`, `Fail(AttributeError)` or
`Fail(NameError)`. The state is what Python leaves behind at the point where
the exception is raised, and the pass stops there. Such an exception never
reaches the caller of `get`. The callbacks are ctypes callbacks
(md4c/protos.py:9,17): ctypes reports an exception raised inside one and
does not propagate it. The engine's own result is discarded
(md4c/binds.py:26,56), and `get` then always runs `_get()`
(md4c/parsers.py:98). So `Render` returns what `_get()` gives on the state
the pass reached, and beside it, as `pass`, the exception the pass recorded,
if any.

Three features of the bindings shape the model:

- Detail structures are ctypes structures, and these are always true.
  - `if info:` in `Html._parse_a` only tells a missing detail apart from a
    present one.
  - `if info.lang:` in `Html._b_parse_code` always holds. So a null language
    text makes the `decode` call raise, after `pre` has already been pushed.
- `self._client.encoding` is read by every `decode` call, but the client
  class defines no such attribute. The model assumes the attribute exists
  (see "Left out").
- `str * n` is empty for `n <= 0`. `list[-1]` on an empty list raises
  `IndexError`.

The lemmas show where the stack discipline holds and where it does not.
When every enter pushes, each renderer's stack depth equals the stack depth
it started with plus the number of enters not yet left, and rendering a
balanced stream leaves the renderer as it was. The discipline breaks in
these cases:

- In `Html`, an HTML block appends without pushing, and `thead` has no
  handler. Either way the matching leave pops the enclosing element, and
  the document root can leave the stack for good.
- In `Ansi`, a rule or an image pushes no closing piece, so its leave pops
  an outer one.
- In `Ansi`, a list item under an ordered list raises `NameError`.
- In `Ansi`, list details are never forgotten. So rendering the same
  document twice on one renderer indents its list items differently.

## Model

| member | source | states |
|---|---|---|
| Enums.BlockOrdinal | md4c/enums.py:9-13 | block ordinals lie in 0..15 |
| Enums.BlockOf | md4c/enums.py:9-13 | `Block(n)` succeeds exactly for 0 <= n < 16, and gives the member with that ordinal |
| Enums.SpanOrdinal | md4c/enums.py:16-20 | span ordinals lie in 0..9 |
| Enums.SpanOf | md4c/enums.py:16-20 | `Span(n)` succeeds exactly for 0 <= n < 10, and gives the member with that ordinal |
| Enums.TextOrdinal | md4c/enums.py:23-27 | text-kind ordinals lie in 0..7 |
| Enums.TextOf | md4c/enums.py:23-27 | `Text(n)` succeeds exactly for 0 <= n < 8, and gives the member with that ordinal |
| Enums.AlignOrdinal | md4c/enums.py:30-34 | alignment ordinals lie in 0..3 |
| Enums.AlignOf | md4c/enums.py:30-34 | `Align(n)` succeeds exactly for 0 <= n < 4, and gives the member with that ordinal |
| Enums.OrdinalsRoundTrip | md4c/enums.py:9-34 | in every family, member to ordinal and back gives the member |
| Enums.NamesDistinct | md4c/enums.py:9-20 | within a family, equal names mean equal members |
| Enums.SharedNames | md4c/enums.py:9-27 | `code` is a Block, Span and Text name; `latex_math` is a Span and Text name; `html` is a Block and Text name |
| Flags.Bit | md4c/flags.py:10-23 | every single `Spec` flag is a power of two |
| Flags.BitsDisjoint | md4c/flags.py:10-23 | two single flags share a bit exactly when they are the same flag |
| Flags.PermissiveAutolinks | md4c/flags.py:24 | email, url and www autolinks together are 0x040C |
| Flags.NoHtml | md4c/flags.py:25 | no HTML blocks and no HTML spans together are 0x0060 |
| Flags.Github | md4c/flags.py:30-31 | the GitHub dialect is 0x0F0C and includes tables, task lists and strikethrough |
| Wraps.BlockDetailKind | md4c/wraps.py:25-32 | exactly ul, ol, li, h, code and td carry a detail; every other block tag, th included, gets none |
| Wraps.SpanDetailKind | md4c/wraps.py:40-44 | exactly a, img and wiki_link carry a detail; inline code, emphasis, strikethrough, math and underline get none |
| Wraps.BlockClause | md4c/wraps.py:12-37 | ValueError exactly when the ordinal is out of range; otherwise the member with that ordinal, and a detail exactly when the table maps the tag and the pointer is not null; that detail is the one pointed at, and of the tag's kind |
| Wraps.SpanClause | md4c/wraps.py:12-49 | the same rule as for blocks, for spans |
| Wraps.UnmappedTagsGetNone | md4c/wraps.py:12-49 | table headers and inline code reach their handler without a detail, whatever the pointer |
| Wraps.UpToNul | md4c/wraps.py:52-58 | reading a `char *` argument gives a prefix of the bytes that holds no NUL and stops at the first NUL |
| Wraps.TextClause | md4c/wraps.py:52-60 | ValueError, and only ValueError, exactly for a bad kind ordinal. Otherwise it gives the kind with that ordinal and the bytes the `c_char_p` read cut to `size` gives: a prefix of the data with no NUL, at most `size` long, that ends at `size`, at the end of the data, or at the first NUL. These are exactly the first `size` bytes when no NUL comes before them |
| Wraps.CutAtUnique | md4c/wraps.py:52-60 | only one byte string meets that description, so the contract of `TextClause` fixes the bytes |
| Dispatch.StripUnderscores | md4c/parsers.py:51-54 | `rstrip('_')` gives a prefix that does not end in `_`, and every character it drops is `_` |
| Dispatch.Res | md4c/parsers.py:51-54 | `_res` gives a prefix of the tag's name that does not end in `_`, and every character it drops is `_` |
| Dispatch.ResolvedNames | md4c/parsers.py:51-60 | only strikethrough loses a character: `del_` resolves to `_parse_del`, and every other tag to its own name |
| Dispatch.HandlerNameOf | md4c/parsers.py:56-62 | two tags look up the same handler exactly when their resolved names agree |
| Dispatch.HandlersDistinctInFamily | md4c/parsers.py:56-62 | within the block family, and within the span family, distinct tags have distinct handlers |
| Dispatch.HandlersAcrossFamilies | md4c/parsers.py:56-62 | a block tag and a span tag share a handler exactly when both are `code` |
| Dispatch.ClassFlags | md4c/parsers.py:27-34 | `Base` declares strikethrough and underline, `Html` tables, and `Ansi` no-HTML |
| Dispatch.ResolveFlags | md4c/parsers.py:29-34 | the constructor's loop gives the caller's flags OR the flags of every `Base` subclass on the order |
| Dispatch.MroFlagsInclude | md4c/parsers.py:29-34 | each `Base` subclass on the order contributes all of its flags |
| Dispatch.MroFlagsWithin | md4c/parsers.py:29-34 | no flag is set that no `Base` subclass on the order declares |
| Dispatch.RendererMroFlags | md4c/parsers.py:27-34 | the class flags of `Html` come to 0x4300 and those of `Ansi` to 0x4260 |
| Dispatch.HtmlFlags | md4c/parsers.py:123-132 | `Html` keeps the caller's flags and adds exactly tables, strikethrough and underline |
| Dispatch.AnsiFlags | md4c/parsers.py:353-363 | `Ansi` keeps the caller's flags and adds exactly no-HTML, strikethrough and underline |
| HtmlRender.Opening | md4c/parsers.py:174-330 | the element a one-element handler creates has a non-empty name and at most one attribute. Only `ol`, `a` and `img` carry one, and only with a detail. Only `ol`, `h`, `a` and `img` can fail, and then with AttributeError |
| HtmlRender.Run | md4c/parsers.py:90-100 | the callbacks of a parse pass raise nothing but IndexError or AttributeError; the root never returns to the stack once it has left, and after it has left the document's children no longer change |
| HtmlRender.Render | md4c/parsers.py:90-100 | `get` always returns the document, whether or not a callback raised, and clears the document's children. A callback's exception, recorded beside the result, is only IndexError or AttributeError. The root never comes back to the stack. If the root had already left the stack, the document holds exactly the children it had before the pass |
| HtmlRender.AddSpec | md4c/parsers.py:146-148 | `_add` appends the node as the last child of the top element and changes nothing below it; IndexError, with nothing changed, on an empty stack |
| HtmlRender.NewSpec | md4c/parsers.py:166-172 | `_new` pushes one childless element and keeps the rest of the stack |
| HtmlRender.FinSpec | md4c/parsers.py:156-160 | `_fin` pops the top element and appends it as the last child of the new top. With only the root left, the root leaves the stack and IndexError follows. On an empty stack: IndexError, nothing changed |
| HtmlRender.Decimal | md4c/parsers.py:212-216 | the level is written with at least one digit, and only with digits |
| HtmlRender.DecimalRoundTrip | md4c/parsers.py:212-216 | the digits written for a level read back as that level |
| HtmlRender.BlockNameFound | md4c/parsers.py:56-62 | a block's `_parse_<name>` exists on `Html` exactly for the tags that have a handler, i.e. every block but `thead` |
| HtmlRender.ContainerNameHandler | md4c/parsers.py:174-204 | the document, quote, list and item names find their own handlers |
| HtmlRender.LeafNameHandler | md4c/parsers.py:206-254 | the rule, heading, code, HTML and paragraph names find their own handlers |
| HtmlRender.TableNameHandler | md4c/parsers.py:256-284 | the table, body, row and cell names find their own handlers |
| HtmlRender.BlockNameLookup | md4c/parsers.py:56-62 | for every block, the name lookup finds a method exactly when the tag has a handler, and finds that handler |
| HtmlRender.SpanNameLookup | md4c/parsers.py:286-330 | for every span, under its resolved name (`del` for strikethrough), the lookup finds a method exactly when the tag has a handler, and finds that handler |
| HtmlRender.NameLookup | md4c/parsers.py:51-62 | for every tag, `getattr` on `_parse_` plus the resolved name succeeds exactly when the tag has a handler, and returns it |
| HtmlRender.Html.constructor | md4c/parsers.py:127-136 | the engine gets the effective flags, and the stack holds only the empty document |
| HtmlRender.Html.Add | md4c/parsers.py:146-148 | the new state and outcome are those of `AddSpec` |
| HtmlRender.Html.Track | md4c/parsers.py:150-154 | text is added to the top element whatever its kind |
| HtmlRender.Html.Fin | md4c/parsers.py:156-160 | the new state and outcome are those of `FinSpec` |
| HtmlRender.Html.Leave | md4c/parsers.py:162-164 | every leave, block or span, is one `_fin` |
| HtmlRender.Html.New | md4c/parsers.py:166-172 | the new state is that of `NewSpec` |
| HtmlRender.Html.BlockCode | md4c/parsers.py:218-234 | pushes `pre`, then pushes and finishes `code`, as `BlockCodeSpec` describes |
| HtmlRender.Html.Handle | md4c/parsers.py:174-330 | runs one `_parse_*` method: the new state and outcome are those `HandlerSpec` gives |
| HtmlRender.Html.Enter | md4c/parsers.py:56-67 | looks up `_parse_<name>` among the class's handlers and does what `EnterSpec` says |
| HtmlRender.Html.Get | md4c/parsers.py:138-144 | returns the document and clears its children; the stack is not reset |
| HtmlProperties.OpeningReads | md4c/parsers.py:174-330 | a one-element handler succeeds exactly when it can read the detail fields it uses |
| HtmlProperties.CodeDepth | md4c/parsers.py:218-244 | a code enter adds exactly one element, keeping everything below, exactly when its language text is readable or it has no detail |
| HtmlProperties.EnterDepth | md4c/parsers.py:174-330 | an enter raises the depth by exactly one, keeping the stack below it, exactly when the tag has a handler other than `_parse_html` and its detail can be read |
| HtmlProperties.BlockHandlers | md4c/parsers.py:174-284 | every block tag except `thead` has a handler |
| HtmlProperties.SpanHandlers | md4c/parsers.py:286-330 | every span tag except the two math spans and wiki links has a handler |
| HtmlProperties.UnhandledEnter | md4c/parsers.py:56-67 | entering `thead`, math or a wiki link changes nothing and pushes nothing |
| HtmlProperties.HtmlBlockDoesNotPush | md4c/parsers.py:246-248 | an HTML block appends its detail to the top element and keeps the depth, taking the append to succeed (bs4 raises ValueError on the `None` detail) |
| HtmlProperties.DocumentAndQuote | md4c/parsers.py:174-184 | the document pushes an empty `body` and a quote an empty `blockquote`, whatever the detail |
| HtmlProperties.OrderedListStart | md4c/parsers.py:192-198 | an ordered list pushes `ol` whose `start` is the detail's start number |
| HtmlProperties.HeadingElement | md4c/parsers.py:212-216 | a heading pushes `h` followed by its level in decimal |
| HtmlProperties.LinkTarget | md4c/parsers.py:298-308 | a link with a detail pushes `a` whose `href` is the target attribute's text as read (up to the first NUL, `size` ignored); without a detail, `a` with no attributes |
| HtmlProperties.ImageSource | md4c/parsers.py:310-318 | an image pushes `img` whose `src` is the source attribute's text as read (up to the first NUL, `size` ignored) |
| HtmlProperties.StrikeElement | md4c/parsers.py:320-324 | strikethrough pushes `del`, whatever the detail |
| HtmlProperties.HeadingNames | md4c/parsers.py:212-216 | headings 1 to 6 become `h1` to `h6` |
| HtmlProperties.MissingDetailRaises | md4c/parsers.py:192-318 | an ordered list, heading or image without a detail, and a link with a null target, raise AttributeError and push nothing |
| HtmlProperties.PushThenFin | md4c/parsers.py:156-172 | pushing two elements and finishing the upper one leaves the lower one open, holding the upper one as its only child |
| HtmlProperties.FencedCodeOpens | md4c/parsers.py:218-234 | a code block whose language can be read pushes one `pre` holding an empty `code` with class `language-` followed by the language attribute's text as read (up to the first NUL, `size` ignored) |
| HtmlProperties.CodeOpenedTags | md4c/parsers.py:218-234 | after that, the open elements are those before plus `pre`, whose only child is the `code` |
| HtmlProperties.BareCode | md4c/parsers.py:236-244 | inline code pushes a bare `code`, and a code block without a detail does the same |
| HtmlProperties.CodeWithoutLanguage | md4c/parsers.py:218-228 | a null language text raises AttributeError after `pre` has been pushed |
| HtmlProperties.CodeTextGoesToPre | md4c/parsers.py:218-234 | the text of a code block lands in `pre`, after the empty `code` |
| HtmlProperties.RunTracksDepth | md4c/parsers.py:156-172 | when every enter pushes and no prefix leaves more than is open, a run does not raise, keeps the root, and ends at the starting depth plus the unmatched enters |
| HtmlProperties.DepthAtEveryPrefix | md4c/parsers.py:156-172 | the same depth equation holds after every prefix of such a stream |
| HtmlProperties.RenderResets | md4c/parsers.py:90-144 | on a balanced stream whose enters all push, no callback raises, `get` leaves the renderer fresh, and it gives the same document when repeated |
| HtmlProperties.HtmlBlockEmptiesStack | md4c/parsers.py:246-248 | in a document holding one HTML block, the last leave finds the stack empty: IndexError. The `body`, holding the appended detail node, is left in the root. That node stands for the `None` the handler appends. bs4 rejects that `None` with ValueError, which the model leaves out |
| HtmlProperties.UnrootedLosesDocument | md4c/parsers.py:156-160 | once the root has left the stack, a whole document raises IndexError at its leave, and the root is unchanged |
| HtmlProperties.TableOpens | md4c/parsers.py:256-260 | a table without a detail pushes an empty `table` and does not raise |
| HtmlProperties.AttributeSizeUnread | md4c/parsers.py:218-318 | giving every attribute of a detail another `size` changes no enter other than `_parse_html`'s, which keeps the detail itself: the handlers never read `size` |
| HtmlProperties.TableHeaderClosesTable | md4c/parsers.py:256-266 | `thead` has no handler, so its leave finishes the table: after document, table, header and header leave, `body` is open and holds the closed table |
| HtmlTree.EnterOpens | md4c/parsers.py:174-330 | a pushing enter leaves on top of the stack the element its tag and detail stand for (`pre` holding the finished `code` for a fenced code block) and changes nothing below |
| HtmlTree.CloseAppends | md4c/parsers.py:156-160 | finishing an element pushed on a non-empty stack appends it as the last child of the element below |
| HtmlTree.RunConcat | md4c/parsers.py:56-82 | a pass over two streams, the first of which raises nothing, is the pass over the second from where the first ended |
| HtmlTree.RunBuilds | md4c/parsers.py:56-172 | walking one node of a document tree whose tags all push raises nothing and appends that node's element tree to the top element |
| HtmlTree.RunBuildsAll | md4c/parsers.py:56-172 | walking a sequence of nodes appends their element trees, in order, to the top element |
| HtmlTree.RenderBuilds | md4c/parsers.py:90-172 | `get` on the walk of a whole document from a fresh renderer raises nothing, returns the document holding exactly the element tree the markup stands for, and leaves the renderer fresh |
| HtmlTree.DocumentOf | md4c/parsers.py:174-178 | a document whose body holds one node renders as `body` holding that node's element tree |
| HtmlTree.WalkBalanced | md4c/parsers.py:56-82 | the walk of one node leaves every tag it enters, never leaves more than it entered, and every enter in it pushes |
| HtmlTree.WalkBalancedAll | md4c/parsers.py:56-82 | the same for a sequence of nodes, so the walk of a whole document is a stream `RenderResets` applies to |
| HtmlTree.EmphasisInParagraph | md4c/parsers.py:250-290 | emphasised text in a paragraph renders as `body` holding `p` holding `em` holding the text |
| HtmlTree.OrderedListItems | md4c/parsers.py:192-204 | an ordered list with two items renders as `ol` with `start` equal to the list's start number, holding the two `li` with their texts in the order they came |
| HtmlTree.SecondLevelHeading | md4c/parsers.py:212-216 | a level-2 heading renders as `h2` holding the title text |
| AnsiRender.Repeat | md4c/parsers.py:478-484 | `c * n` is `n` copies of `c`, and empty when `n` is not positive |
| AnsiRender.NilSpec | md4c/parsers.py:408-414 | `_nil` appends an empty opening piece and pushes an empty closing piece exactly when asked; the list details are kept |
| AnsiRender.FetchLiMark | md4c/parsers.py:440-452 | the mark is fetched exactly when the detail is an unordered list's, and is its mark; an ordered list's detail raises NameError; anything else, `None` included, raises AttributeError |
| AnsiRender.ItemOpening | md4c/parsers.py:456-472 | an item opening is a newline, two spaces per level, then `- ` |
| AnsiRender.ImgSpec | md4c/parsers.py:526-532 | an image succeeds exactly when its detail holds a source text; it then appends `\n<src>\n` and pushes no closing piece; otherwise AttributeError, with nothing changed |
| AnsiRender.Output | md4c/parsers.py:371-377 | the text `get` returns is a suffix of the joined pieces that does not start with whitespace, and everything dropped before it is whitespace |
| AnsiRender.Run | md4c/parsers.py:90-100 | the callbacks of a parse pass never raise ValueError |
| AnsiRender.Render | md4c/parsers.py:90-100 | `get` always returns text, whether or not a callback raised. The text does not start with whitespace, and the buffer is left empty. A callback's exception, recorded beside the result, is never ValueError |
| AnsiRender.AddSpec | md4c/parsers.py:379-381 | `_add` appends the piece to the buffer and keeps the stack and the list details |
| AnsiRender.NewSpec | md4c/parsers.py:399-406 | `_new` always appends the opening piece and pushes the closing piece only when there is one |
| AnsiRender.FinSpec | md4c/parsers.py:389-393 | `_fin` raises IndexError, changing nothing, exactly when no closing piece is pending; otherwise it moves the top closing piece to the end of the buffer |
| AnsiRender.LStripBy | md4c/parsers.py:371-377 | `lstrip` gives a suffix whose first character is not stripped, and drops only stripped characters |
| AnsiRender.BlockNameLookup | md4c/parsers.py:416-504 | a block's `_parse_<name>` exists on `Ansi` exactly when the tag has a handler, and it is that handler |
| AnsiRender.SpanNameLookup | md4c/parsers.py:506-544 | the same for spans, under the resolved name (`del` for strikethrough) |
| AnsiRender.NameLookup | md4c/parsers.py:51-62 | for every tag, `getattr` on `_parse_` plus the resolved name succeeds exactly when the tag has a handler, and returns it |
| AnsiRender.Ansi.constructor | md4c/parsers.py:357-369 | the engine gets the effective flags; buffer, stack and list details start empty |
| AnsiRender.Ansi.Add | md4c/parsers.py:379-381 | the new state is that of `AddSpec` |
| AnsiRender.Ansi.Track | md4c/parsers.py:383-387 | text is appended whatever its kind |
| AnsiRender.Ansi.Fin | md4c/parsers.py:389-393 | the new state and outcome are those of `FinSpec` |
| AnsiRender.Ansi.Leave | md4c/parsers.py:395-397 | every leave, block or span, is one `_fin` |
| AnsiRender.Ansi.New | md4c/parsers.py:399-406 | the new state is that of `NewSpec` |
| AnsiRender.Ansi.Nil | md4c/parsers.py:408-414 | an empty opening piece, and an empty closing piece when asked for one |
| AnsiRender.Ansi.Li | md4c/parsers.py:454-476 | a list item behaves as `LiSpec` says: IndexError with no list detail, the mark helper's exception, or an indented `- ` with an empty closing piece |
| AnsiRender.Ansi.Img | md4c/parsers.py:526-532 | an image writes its source between newlines and pushes no closing piece; AttributeError without a readable source |
| AnsiRender.Ansi.Handle | md4c/parsers.py:416-544 | runs one `_parse_*` method: the new state and outcome are those `HandlerSpec` gives |
| AnsiRender.Ansi.Enter | md4c/parsers.py:56-67 | looks up `_parse_<name>` among the class's handlers and does what `EnterSpec` says |
| AnsiRender.Ansi.Get | md4c/parsers.py:371-377 | draining the buffer from the front gives the joined pieces with leading whitespace and newlines stripped; the buffer is emptied and the rest is kept |
| AnsiProperties.AnsiBlockHandlers | md4c/parsers.py:416-504 | a block tag has a handler exactly when it is not html or a table tag |
| AnsiProperties.AnsiSpanHandlers | md4c/parsers.py:506-544 | a span tag has a handler exactly when it is not math or a wiki link |
| AnsiProperties.EnterRaises | md4c/parsers.py:454-532 | only list items and images can raise on enter, and then nothing changes |
| AnsiProperties.EnterAppends | md4c/parsers.py:399-414 | an enter that does not raise appends exactly one piece when the tag has a handler and changes nothing otherwise, and pushes at most one closing piece above the old stack |
| AnsiProperties.HandlerAppends | md4c/parsers.py:399-544 | every `_parse_*` method that does not raise appends exactly one piece and pushes at most one closing piece above the old stack |
| AnsiProperties.EnterDepth | md4c/parsers.py:399-544 | an enter pushes exactly one closing piece exactly when the tag has a handler, is not a rule or an image, and, for a list item, the last list detail is an unordered list's |
| AnsiProperties.EnterListing | md4c/parsers.py:428-438 | the list details grow by the enter's detail exactly for list enters, and never shrink |
| AnsiProperties.AnsiBlockPieces | md4c/parsers.py:416-504 | the document and paragraphs write an empty pair; quotes and code blocks inverse video; headings `\n# ` and ` #\n` |
| AnsiProperties.AnsiSpanPieces | md4c/parsers.py:494-524 | links write an empty pair and inline code inverse video |
| AnsiProperties.EmphasisPieces | md4c/parsers.py:506-544 | emphasis, strong, strikethrough and underline write their own effect and push its reset |
| AnsiProperties.RuleWidth | md4c/parsers.py:478-484 | a rule writes as many dashes as the terminal is wide, and pushes no closing piece |
| AnsiProperties.ImageLine | md4c/parsers.py:526-532 | an image writes a newline, the source attribute's text as read (up to the first NUL, `size` ignored) and a newline, and pushes no closing piece; without a readable source it raises AttributeError and changes nothing |
| AnsiProperties.AttributeSizeUnread | md4c/parsers.py:526-532 | giving every attribute of a detail another `size` changes no enter other than the list enters, which keep the detail itself |
| AnsiProperties.ItemUnderUl | md4c/parsers.py:440-476 | under an unordered list an item is indented by the number of list details seen so far, minus one |
| AnsiProperties.ItemUnderOl | md4c/parsers.py:446-452 | under an ordered list an item raises NameError and changes nothing, so the start number is not advanced |
| AnsiProperties.ItemWithoutList | md4c/parsers.py:454-468 | before any list detail an item raises IndexError; after a list without a detail, AttributeError |
| AnsiProperties.RunAppends | md4c/parsers.py:379-406 | a run only ever appends to the buffer; a run that does not raise appends one piece per callback, except enters without a handler |
| AnsiProperties.RunListing | md4c/parsers.py:428-438 | a run appends the details of its list enters to the list details, in order, and `get` keeps them |
| AnsiProperties.RunTracksCloses | md4c/parsers.py:389-414 | when every enter pushes and no prefix leaves more than is open, a run does not raise and the stack grows by the unmatched enters |
| AnsiProperties.RenderResets | md4c/parsers.py:90-100 | on an empty buffer and stack, a balanced stream without lists whose enters all push renders without a callback raising, leaves the renderer as it was, and renders the same again |
| AnsiProperties.OutputStripsOnce | md4c/parsers.py:371-377 | the second `lstrip('\n')` removes nothing after `lstrip()` |
| AnsiProperties.OutputKeepsText | md4c/parsers.py:371-377 | output that starts with a character other than whitespace is returned as joined |
| AnsiProperties.RulePopsDocumentClose | md4c/parsers.py:478-484 | a rule inside the document: the rule's leave pops the document's closing piece, and the document's leave raises IndexError |
| AnsiProperties.RenderParagraphThenList | md4c/parsers.py:428-476 | a paragraph followed by a one-item unordered list renders as the paragraph, the item opening at the level of the list details seen before, and the item text; one more detail is kept |
| AnsiProperties.StreamOutput | md4c/parsers.py:371-377 | the pieces of a paragraph then a one-item list come out as the paragraph text, the item opening and the item text, joined |
| AnsiProperties.DeeperIsLonger | md4c/parsers.py:454-476 | an item one level deeper renders two characters longer |
| AnsiProperties.ListsAccumulate | md4c/parsers.py:428-438 | rendering that document twice on one renderer gives two different texts, the second indented one level deeper |
| AnsiProperties.OrderedItemStillRenders | md4c/parsers.py:440-452 | an item of an ordered list raises NameError in its callback, yet `get` returns the (empty) text written so far. The ordered list's detail and its pending closing piece stay with the renderer for the next pass |

## Left out

- The C engine and its loading (`clients.py`, `binds.py`, `protos.py`,
  `types.py`, `helpers.py`): the callback stream is the model's input.
  `Main.parse` is a call into C. clients.py, binds.py, protos.py,
  types.py and helpers.py are not part of this model.
- Reading detail structures from memory (`from_address`) and their layouts
  (details.py): details are plain datatypes with the same fields.
- The memory past an attribute string. An attribute's `text` stands for
  what the `c_char_p` read of its pointer returns: the characters before
  the first NUL (`Wraps.UpToNul`), or null. The handlers at
  md4c/parsers.py:227, 303, 312 and 528 use that text whole and never cut
  it to the attribute's `size`. The text wrapper, by contrast, cuts its data
  to `size` (md4c/wraps.py:56). md4c's attribute strings are delimited by
  `size` and are not NUL-terminated (md4c.h is not part of this model). So,
  as written, an `href`, a `src` or a code block's `language-` class runs on
  past the attribute up to the next NUL in memory. The model does not
  represent that memory: `text` is the string as read. `LinkTarget`,
  `ImageSource`, `FencedCodeOpens` and `ImageLine` give the attribute's
  text as read, and both `AttributeSizeUnread` lemmas state that `size` is
  never consulted.
- The callback wrappers return 0 to the engine, and the engine's result is
  discarded. When a Python callback raises, ctypes reports the exception and
  gives the engine an unset return value. The engine stops the parse when
  that value is non-zero and goes on when it is zero. The model takes the
  first case: the pass stops at the first callback that raises. Callbacks
  the engine would still make after a zero value are not modelled. Neither
  are the `debug_log` and `syntax` wrappers.
- The engine's promise that the stream is well nested is not assumed. The
  depth lemmas carry it as a precondition (`Balanced`, `NeverUnder`).
- Decoding bytes with `self._client.encoding` (md4c/parsers.py:152, 227,
  303, 312, 385, 528). As written, the client is a `clients.Main`, whose only
  slot is `_store` (md4c/clients.py:72) and which defines no `encoding`, so
  each of these `decode` calls raises AttributeError. Every text callback of
  both renderers would raise. So would `Html`'s code block after it pushes
  `pre`, `Html`'s link with a detail, and the image handler of both
  renderers. The model assumes a working encoding instead: text and
  attribute values are already decoded strings. `Html.Track`, `Ansi.Track`,
  `FencedCodeOpens`, `LinkTarget`, `ImageSource`, `CodeTextGoesToPre`,
  `ImageLine`, `Ansi.Img` and the stream lemmas that contain text or images
  describe the code with that attribute present.
- HTML serialisation and escaping by the tree library (`str(soup)`,
  `new_tag`): the model stops at the element tree.
- The `ValueError` of `_parse_html`. `_block_details` has no entry for
  `html` (md4c/wraps.py:25-32), so the wrappers always hand `_parse_html` a
  `None` detail, and md4c/parsers.py:246-248 appends that `None` to the top
  element. The tree library is bs4 (imported at md4c/parsers.py:104), whose
  `Tag.insert` raises `ValueError("Cannot insert None into a tag.")` when
  given `None`. bs4 is not part of this model. The model appends a
  `DetailNode` holding the detail and does not raise. So
  `HtmlBlockDoesNotPush`, `HtmlBlockEmptiesStack`, and the "only IndexError
  or AttributeError" of `HtmlRender.Run` and `HtmlRender.Render`, describe
  the code as if that append did not raise. As written, every HTML block
  raises ValueError in its callback.
- HtmlRender.Run, HtmlRender.Render, HtmlProperties.HtmlBlockDoesNotPush and
  HtmlProperties.HtmlBlockEmptiesStack: they take the `html` append to
  succeed, for the reason above.
- HtmlTree.RenderBuilds: it speaks of streams given as the walk of a
  markup tree whose tags all push, which is how the engine reports a
  document. It does not prove that every balanced stream is such a walk.
  Walks that hold an HTML block, a `thead` or a detail a handler cannot
  read break the stack discipline instead; `HtmlBlockEmptiesStack`,
  `TableHeaderClosesTable` and `MissingDetailRaises` cover those.
- HtmlRender.Run and AnsiRender.Run: each stops the pass at the first
  callback that raises, as the line on callback return values says.
- The byte values of the terminal styling sequences: each is a named marker
  that is never whitespace.
- `shutil.get_terminal_size`: the width is a parameter of `Enter`, `Run`
  and `Render`.
- The import-time checks for the optional tree and styling libraries, and
  the `client` property.
- The metaclass that builds the detail classes' documentation.
- The `abc` helper module behind `Enum` and `Flag`. It is taken to give
  ordinary integer-valued enumerations and flags.
