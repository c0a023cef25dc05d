/** What the terminal renderer guarantees, and where it does not: which
    enters push a closing piece, what every callback appends, how list
    items are indented, and what `get` leaves behind for the next pass. */
module AnsiProperties {
  import opened Wrappers
  import opened Enums
  import opened Details
  import opened Dispatch
  import opened AnsiRender

  /** The block tags with a `_parse_` method: none of the table tags, and
      not `html`. */
  lemma AnsiBlockHandlers(b: Block)
    ensures Res(BlockTag(b)) in AnsiMethods <==>
              b !in {Block.Html, Block.Table, Block.Thead, Block.Tbody, Block.Tr, Block.Th, Block.Td}
  {
    NameLookup(BlockTag(b));
  }

  /** The span tags with a `_parse_` method: all but the two math spans and
      wiki links. */
  lemma AnsiSpanHandlers(s: Span)
    ensures Res(SpanTag(s)) in AnsiMethods <==> s !in {Span.LatexMath, Span.LatexMathDisplay, Span.WikiLink}
  {
    NameLookup(SpanTag(s));
  }

  /** Whether the class has a `_parse_` method for `tag`. */
  predicate Handled(tag: Tag) {
    HandlerOf(tag).Some?
  }

  /** The last list detail seen is an unordered list's: the only case in
      which a list item can fetch its mark. */
  predicate LiReady(listing: seq<Option<Detail>>) {
    listing != [] && listing[|listing| - 1].Some? && listing[|listing| - 1].value.Ul?
  }

  /** The enters that push a closing piece: a handler exists, it is not a
      rule or an image (which push none), and a list item can fetch its
      mark (`ready`: the last list detail seen is an unordered list's). */
  predicate AnsiPushes(ready: bool, tag: Tag) {
    match HandlerOf(tag)
    case None => false
    case Some(h) => h != ParseHr && h != ParseImg && (h == ParseLi ==> ready)
  }

  /** The image handler decodes its source text whole and never reads its
      `size`: giving every attribute of the detail another `size` changes
      nothing. The list handlers are left aside, as they keep the detail
      itself (a list detail has no attribute). */
  lemma AttributeSizeUnread(st: AnsiState, tag: Tag, d: Detail, n: nat, width: int)
    requires tag != BlockTag(Block.Ul) && tag != BlockTag(Block.Ol)
    ensures EnterSpec(st, tag, Some(Resized(d, n)), width) == EnterSpec(st, tag, Some(d), width)
  {
  }

  /** Only a list item or an image can raise on enter, and a raising enter
      changes nothing. */
  lemma EnterRaises(st: AnsiState, tag: Tag, info: Option<Detail>, width: int)
    ensures var s := EnterSpec(st, tag, info, width);
            s.outcome.Fail? ==> s.state == st && (tag == BlockTag(Block.Li) || tag == SpanTag(Span.Img))
  {
  }

  /** An enter that does not raise appends exactly one piece when the tag is
      handled and nothing otherwise; it pushes at most one closing piece and
      leaves the rest of the stack alone. */
  lemma EnterAppends(st: AnsiState, tag: Tag, info: Option<Detail>, width: int)
    ensures var s := EnterSpec(st, tag, info, width);
            s.outcome.Pass? ==>
              (Handled(tag) ==> |s.state.buffer| == |st.buffer| + 1 && s.state.buffer[..|st.buffer|] == st.buffer) &&
              (!Handled(tag) ==> s.state == st) &&
              |st.closes| <= |s.state.closes| <= |st.closes| + 1 && s.state.closes[..|st.closes|] == st.closes
  {
    match HandlerOf(tag)
    case None =>
    case Some(h) => HandlerAppends(st, h, info, width);
  }

  /** The same, for one handler. */
  lemma HandlerAppends(st: AnsiState, h: Handler, info: Option<Detail>, width: int)
    ensures var s := HandlerSpec(st, h, info, width);
            s.outcome.Pass? ==>
              |s.state.buffer| == |st.buffer| + 1 && s.state.buffer[..|st.buffer|] == st.buffer &&
              |st.closes| <= |s.state.closes| <= |st.closes| + 1 && s.state.closes[..|st.closes|] == st.closes
  {
    var s := HandlerSpec(st, h, info, width);
    if s.outcome.Pass? {
      assert s.state.buffer[..|st.buffer|] == st.buffer;
      assert s.state.closes[..|st.closes|] == st.closes;
    }
  }

  /** An enter pushes exactly one closing piece, and does not raise, exactly
      when `AnsiPushes` holds. */
  lemma EnterDepth(st: AnsiState, tag: Tag, info: Option<Detail>, width: int)
    ensures var s := EnterSpec(st, tag, info, width);
            AnsiPushes(LiReady(st.listing), tag) <==> s.outcome.Pass? && |s.state.closes| == |st.closes| + 1
  {
  }

  /** Whether an enter of `tag` runs `_parse_ul` or `_parse_ol`. */
  predicate IsListEnter(tag: Tag) {
    tag == BlockTag(Block.Ul) || tag == BlockTag(Block.Ol)
  }

  /** Only list enters change the list details, by appending their own. */
  lemma EnterListing(st: AnsiState, tag: Tag, info: Option<Detail>, width: int)
    ensures var s := EnterSpec(st, tag, info, width);
            s.state.listing == if s.outcome.Pass? && IsListEnter(tag) then st.listing + [info] else st.listing
  {
  }

  // ------------------------------------------------------ what each tag writes

  /** The pieces the block handlers write: the document and paragraphs an
      empty opening and closing, quotes and code inverse video, headings a
      `#` on each side on a line of their own. */
  lemma AnsiBlockPieces(st: AnsiState, info: Option<Detail>, width: int)
    ensures EnterSpec(st, BlockTag(Block.Doc), info, width) == Step(NewSpec(st, Lit(""), Some(Lit(""))), Pass)
    ensures EnterSpec(st, BlockTag(Block.P), info, width) == Step(NewSpec(st, Lit(""), Some(Lit(""))), Pass)
    ensures EnterSpec(st, BlockTag(Block.Quote), info, width) == Step(NewSpec(st, Mark(EfInverse), Some(Mark(RsInverse))), Pass)
    ensures EnterSpec(st, BlockTag(Block.Code), info, width) == Step(NewSpec(st, Mark(EfInverse), Some(Mark(RsInverse))), Pass)
    ensures EnterSpec(st, BlockTag(Block.H), info, width) == Step(NewSpec(st, Lit("\n# "), Some(Lit(" #\n"))), Pass)
  {
  }

  /** The pieces the span handlers write: links an empty pair, inline code
      inverse video. */
  lemma AnsiSpanPieces(st: AnsiState, info: Option<Detail>, width: int)
    ensures EnterSpec(st, SpanTag(Span.A), info, width) == Step(NewSpec(st, Lit(""), Some(Lit(""))), Pass)
    ensures EnterSpec(st, SpanTag(Span.Code), info, width) == Step(NewSpec(st, Mark(EfInverse), Some(Mark(RsInverse))), Pass)
  {
  }

  /** Each emphasis writes its own effect and pushes its own reset. */
  lemma EmphasisPieces(st: AnsiState, info: Option<Detail>, width: int)
    ensures EnterSpec(st, SpanTag(Span.Em), info, width) == Step(NewSpec(st, Mark(EfItalic), Some(Mark(RsItalic))), Pass)
    ensures EnterSpec(st, SpanTag(Span.Strong), info, width) == Step(NewSpec(st, Mark(EfBold), Some(Mark(RsBoldDim))), Pass)
    ensures EnterSpec(st, SpanTag(Span.Del), info, width) == Step(NewSpec(st, Mark(EfStrike), Some(Mark(RsStrike))), Pass)
    ensures EnterSpec(st, SpanTag(Span.U), info, width) == Step(NewSpec(st, Mark(EfUnderl), Some(Mark(RsUnderl))), Pass)
  {
  }

  /** A rule is as wide as the terminal and pushes no closing piece. */
  lemma RuleWidth(st: AnsiState, info: Option<Detail>, width: int)
    ensures var s := EnterSpec(st, BlockTag(Block.Hr), info, width);
            s == Step(NewSpec(st, Lit(Repeat('-', width)), None), Pass) &&
            s.state.closes == st.closes &&
            |s.state.buffer[|st.buffer|].text| == (if width > 0 then width else 0)
  {
  }

  /** An image writes its source on a line of its own and pushes no closing
      piece; without a readable source it raises. */
  lemma ImageLine(st: AnsiState, src: Attribute, title: Attribute, width: int)
    ensures var s := EnterSpec(st, SpanTag(Span.Img), Some(Detail.Img(src, title)), width);
            if src.text.Some? then s == Step(NewSpec(st, Lit("\n" + src.text.value + "\n"), None), Pass)
            else s == Step(st, Fail(AttributeError))
    ensures EnterSpec(st, SpanTag(Span.Img), None, width) == Step(st, Fail(AttributeError))
  {
  }

  // -------------------------------------------------------------- list items

  /** Under an unordered list the item is indented by the number of list
      details seen so far, not by how deeply the item is nested. */
  lemma ItemUnderUl(st: AnsiState, isTight: int, mark: char, info: Option<Detail>, width: int)
    requires st.listing != [] && st.listing[|st.listing| - 1] == Some(Detail.Ul(isTight, mark))
    ensures EnterSpec(st, BlockTag(Block.Li), info, width)
              == Step(NewSpec(st, Lit(ItemOpening(|st.listing| - 1)), Some(Lit(""))), Pass)
  {
  }

  /** Under an ordered list the mark helper raises NameError, so no item of
      an ordered list is rendered. */
  lemma ItemUnderOl(st: AnsiState, start: nat, isTight: int, delimiter: char, info: Option<Detail>, width: int)
    requires st.listing != [] && st.listing[|st.listing| - 1] == Some(Detail.Ol(start, isTight, delimiter))
    ensures EnterSpec(st, BlockTag(Block.Li), info, width) == Step(st, Fail(NameError))
  {
    assert ClassNameLower(Some(Detail.Ol(start, isTight, delimiter))) == "ol";
  }

  /** Before any list detail is seen, an item raises IndexError; after a list
      without a detail, AttributeError. */
  lemma ItemWithoutList(st: AnsiState, info: Option<Detail>, width: int)
    ensures st.listing == [] ==> EnterSpec(st, BlockTag(Block.Li), info, width) == Step(st, Fail(IndexError))
    ensures st.listing != [] && st.listing[|st.listing| - 1] == None ==>
              EnterSpec(st, BlockTag(Block.Li), info, width) == Step(st, Fail(AttributeError))
  {
    assert "nonetype" != "ul" && "nonetype" != "ol";
  }

  // ----------------------------------------------------------------- streams

  /** The number of pieces a stream appends when none of its callbacks
      raises: one per callback, except enters without a handler. */
  function Pieces(events: seq<Event>): nat {
    if events == [] then 0
    else (if events[0].Enter? && !Handled(events[0].tag) then 0 else 1) + Pieces(events[1..])
  }

  /** The buffer only grows, and a pass that does not raise appends exactly
      one piece per callback that has something to write. */
  lemma {:induction false} RunAppends(st: AnsiState, events: seq<Event>, width: int)
    ensures st.buffer <= Run(st, events, width).state.buffer
    ensures Run(st, events, width).outcome.Pass? ==> |Run(st, events, width).state.buffer| == |st.buffer| + Pieces(events)
    decreases |events|
  {
    if events != [] {
      var s := Apply(st, events[0], width);
      match events[0] {
        case Enter(tag, info) =>
          EnterAppends(st, tag, info, width);
          EnterRaises(st, tag, info, width);
        case Leave(_, _) =>
        case Track(_, _) =>
      }
      if s.outcome.Pass? {
        RunAppends(s.state, events[1..], width);
      }
    }
  }

  /** The details of the list enters of a stream, in order. */
  function ListInfos(events: seq<Event>): seq<Option<Detail>> {
    if events == [] then []
    else (if events[0].Enter? && IsListEnter(events[0].tag) then [events[0].info] else []) + ListInfos(events[1..])
  }

  /** The list details only grow: a pass appends the details of its list
      enters, and nothing ever removes them, not even `get`. */
  lemma {:induction false} RunListing(st: AnsiState, events: seq<Event>, width: int)
    ensures st.listing <= Run(st, events, width).state.listing
    ensures Run(st, events, width).outcome.Pass? ==> Run(st, events, width).state.listing == st.listing + ListInfos(events)
    ensures GetSpec(Run(st, events, width).state).1.listing == Run(st, events, width).state.listing
    decreases |events|
  {
    if events != [] {
      var e := events[0];
      var s := Apply(st, e, width);
      var own := if e.Enter? && IsListEnter(e.tag) then [e.info] else [];
      assert ListInfos(events) == own + ListInfos(events[1..]);
      if s.outcome.Pass? {
        assert s.state.listing == st.listing + own by {
          if e.Enter? {
            EnterListing(st, e.tag, e.info, width);
          }
        }
        RunListing(s.state, events[1..], width);
        ListingsJoin(st.listing, own, ListInfos(events[1..]));
      } else {
        assert s.state == st by {
          if e.Enter? {
            EnterRaises(st, e.tag, e.info, width);
          }
        }
      }
    }
  }

  /** The two sequence facts the step of `RunListing` needs, kept apart so
      that they are proved outside that lemma's large context. */
  lemma ListingsJoin(a: seq<Option<Detail>>, b: seq<Option<Detail>>, c: seq<Option<Detail>>)
    ensures (a + b) + c == a + (b + c)
    ensures a <= a + b
  {
  }

  /** Whether list items can fetch their mark after `e`. */
  function ReadyAfter(ready: bool, e: Event): bool {
    if e.Enter? && IsListEnter(e.tag) then e.info.Some? && e.info.value.Ul? else ready
  }

  /** Every enter of the stream pushes a closing piece, given whether list
      items can fetch their mark at its start. */
  predicate AllPush(ready: bool, events: seq<Event>)
    decreases |events|
  {
    events == [] ||
    ((events[0].Enter? ==> AnsiPushes(ready, events[0].tag)) && AllPush(ReadyAfter(ready, events[0]), events[1..]))
  }

  /** With every enter pushing, a stream that never leaves more than is open
      runs without raising and ends with the closing stack raised by its
      unmatched enters. */
  lemma {:induction false} RunTracksCloses(st: AnsiState, events: seq<Event>, width: int)
    requires AllPush(LiReady(st.listing), events)
    requires NeverUnder(events, -|st.closes|)
    ensures Run(st, events, width).outcome == Pass
    ensures |Run(st, events, width).state.closes| == |st.closes| + Nesting(events)
    decreases |events|
  {
    if events != [] {
      var e := events[0];
      NeverUnderTail(events, -|st.closes|);
      var s := Apply(st, e, width);
      match e {
        case Enter(tag, info) =>
          EnterDepth(st, tag, info, width);
          EnterListing(st, tag, info, width);
        case Leave(_, _) =>
        case Track(_, _) =>
      }
      assert s.outcome == Pass && |s.state.closes| == |st.closes| + Delta(e);
      assert LiReady(s.state.listing) == ReadyAfter(LiReady(st.listing), e);
      RunTracksCloses(s.state, events[1..], width);
    }
  }

  /** A balanced stream whose enters all push and which enters no list,
      from a state with nothing buffered and nothing open, renders without
      raising and leaves the renderer as it found it; a second identical
      pass then renders the same text. */
  lemma RenderResets(st: AnsiState, events: seq<Event>, width: int)
    requires st.buffer == [] && st.closes == []
    requires Balanced(events) && AllPush(LiReady(st.listing), events) && ListInfos(events) == []
    ensures Render(st, events, width).pass == Pass
    ensures Render(st, events, width).after == st
    ensures Render(Render(st, events, width).after, events, width) == Render(st, events, width)
  {
    var s := Run(st, events, width);
    assert s.outcome == Pass && |s.state.closes| == 0 by {
      RunTracksCloses(st, events, width);
    }
    assert s.state.listing == st.listing by {
      RunListing(st, events, width);
      assert st.listing + [] == st.listing;
    }
    var out := Output(s.state.buffer);
    assert Render(st, events, width) == Rendered(Pass, out, st) by {
      assert GetSpec(s.state) == (out, st);
    }
  }

  /** A list item under an ordered list raises NameError inside its
      callback, and the pass stops there. `get` still returns, with what
      was written before, and the renderer keeps the list detail and the
      ordered list's pending closing piece for the next pass. */
  lemma OrderedItemStillRenders(st: AnsiState, start: nat, isTight: int, delimiter: char, width: int)
    requires st.buffer == []
    ensures var ol := Detail.Ol(start, isTight, delimiter);
            Render(st, [Enter(BlockTag(Block.Ol), Some(ol)), Enter(BlockTag(Block.Li), None)], width)
              == Rendered(Fail(NameError), [], AnsiState([], st.closes + [Empty], st.listing + [Some(ol)]))
  {
    var ol := Detail.Ol(start, isTight, delimiter);
    var events := [Enter(BlockTag(Block.Ol), Some(ol)), Enter(BlockTag(Block.Li), None)];
    var s1 := AnsiState([Empty], st.closes + [Empty], st.listing + [Some(ol)]);
    assert Apply(st, events[0], width) == Step(s1, Pass);
    assert Apply(s1, events[1], width) == Step(s1, Fail(NameError)) by {
      assert ClassNameLower(Some(ol)) == "ol";
    }
    assert Run(st, events, width) == Step(s1, Fail(NameError)) by {
      assert events[1..] == [events[1]];
    }
    assert Output([Empty]) == [] by {
      assert Flatten([Empty]) == [];
    }
  }

  // ------------------------------------------------------------- the output

  /** `lstrip('\n')` after `lstrip()` removes nothing: a newline is
      whitespace. So the text `get` returns starts with a glyph that is not
      whitespace, and only whitespace was dropped in front of it. */
  lemma OutputStripsOnce(pieces: seq<Fragment>)
    ensures Output(pieces) == LStripBy(Flatten(pieces), IsSpace)
  {
    var r := LStripBy(Flatten(pieces), IsSpace);
    assert !(r != [] && r[0].Ch? && IsNewline(r[0].c));
  }

  /** The glyphs of a text. */
  function Chars(text: string): seq<Glyph> {
    Glyphs(Lit(text))
  }

  lemma {:induction false} FlattenAppend(a: seq<Fragment>, b: seq<Fragment>)
    ensures Flatten(a + b) == Flatten(a) + Flatten(b)
    decreases |a|
  {
    if a != [] {
      assert (a + b)[0] == a[0];
      assert (a + b)[1..] == a[1..] + b;
      FlattenAppend(a[1..], b);
      calc {
        Flatten(a + b);
        Glyphs(a[0]) + Flatten(a[1..] + b);
        Glyphs(a[0]) + (Flatten(a[1..]) + Flatten(b));
        (Glyphs(a[0]) + Flatten(a[1..])) + Flatten(b);
      }
    } else {
      assert a + b == b;
    }
  }

  // ------------------------------------------------- where the output drifts

  /** A rule inside the document. */
  function RuleInDocument(): seq<Event> {
    [Enter(BlockTag(Block.Doc), None), Enter(BlockTag(Block.Hr), None)] +
    [Leave(BlockTag(Block.Hr), None), Leave(BlockTag(Block.Doc), None)]
  }

  /** A run is its first part, then its second unless the first raised. */
  lemma {:induction false} RunConcat(st: AnsiState, a: seq<Event>, b: seq<Event>, width: int)
    ensures Run(st, a + b, width) ==
              var s := Run(st, a, width); if s.outcome.Fail? then s else Run(s.state, b, width)
    decreases |a|
  {
    if a != [] {
      assert (a + b)[0] == a[0];
      assert (a + b)[1..] == a[1..] + b;
      var s := Apply(st, a[0], width);
      assert Run(st, a + b, width) == if s.outcome.Fail? then s else Run(s.state, a[1..] + b, width);
      assert Run(st, a, width) == if s.outcome.Fail? then s else Run(s.state, a[1..], width);
      if s.outcome.Pass? {
        RunConcat(s.state, a[1..], b, width);
      }
    } else {
      assert a + b == b;
    }
  }

  lemma RunTwo(st: AnsiState, e0: Event, e1: Event, width: int)
    ensures Run(st, [e0, e1], width) ==
              var s := Apply(st, e0, width); if s.outcome.Fail? then s else Apply(s.state, e1, width)
  {
    assert [e0, e1][1..] == [e1];
    assert [e1][1..] == [];
    var s := Apply(st, e0, width);
    if s.outcome.Pass? {
      var s1 := Apply(s.state, e1, width);
      assert Run(s.state, [e1], width) == if s1.outcome.Fail? then s1 else Run(s1.state, [], width);
    }
  }

  /** A rule pushes no closing piece, so its leave pops the document's, and
      the document's own leave finds the stack empty and raises. */
  lemma RulePopsDocumentClose(st: AnsiState, width: int)
    requires st.closes == []
    ensures Run(st, RuleInDocument(), width)
              == Step(AnsiState(st.buffer + [Lit(""), Lit(Repeat('-', width)), Lit("")], [], st.listing), Fail(IndexError))
  {
    var first := [Enter(BlockTag(Block.Doc), None), Enter(BlockTag(Block.Hr), None)];
    var second := [Leave(BlockTag(Block.Hr), None), Leave(BlockTag(Block.Doc), None)];
    var s1 := AnsiState(st.buffer + [Lit("")], [Lit("")], st.listing);
    var s2 := AnsiState(st.buffer + [Lit(""), Lit(Repeat('-', width))], [Lit("")], st.listing);
    var s3 := AnsiState(st.buffer + [Lit(""), Lit(Repeat('-', width)), Lit("")], [], st.listing);
    assert Apply(st, first[0], width) == Step(s1, Pass) by {
      AnsiBlockPieces(st, None, width);
    }
    assert Apply(s1, first[1], width) == Step(s2, Pass) by {
      RuleWidth(s1, None, width);
    }
    assert Apply(s2, second[0], width) == Step(s3, Pass);
    assert Apply(s3, second[1], width) == Step(s3, Fail(IndexError));
    RunTwo(st, first[0], first[1], width);
    RunTwo(s2, second[0], second[1], width);
    RunConcat(st, first, second, width);
  }

  /** A paragraph, then an unordered list of one item, in a document. */
  function ParagraphPart(para: string): seq<Event> {
    [Enter(BlockTag(Block.Doc), None), Enter(BlockTag(Block.P), None)] +
    [Track(Text.Normal, para), Leave(BlockTag(Block.P), None)]
  }

  function ItemPart(list: Detail, item: Option<Detail>, text: string): seq<Event> {
    [Enter(BlockTag(Block.Ul), Some(list)), Enter(BlockTag(Block.Li), item)] +
    [Track(Text.Normal, text), Leave(BlockTag(Block.Li), item)]
  }

  function ClosingPart(list: Detail): seq<Event> {
    [Leave(BlockTag(Block.Ul), Some(list)), Leave(BlockTag(Block.Doc), None)]
  }

  function ParagraphThenList(para: string, list: Detail, item: Option<Detail>, text: string): seq<Event> {
    ParagraphPart(para) + (ItemPart(list, item, text) + ClosingPart(list))
  }

  lemma ParagraphSteps(st: AnsiState, para: string, width: int)
    requires st.closes == []
    ensures Run(st, ParagraphPart(para), width)
              == Step(AnsiState(st.buffer + [Lit(""), Lit(""), Lit(para), Lit("")], [Lit("")], st.listing), Pass)
  {
    var evs := ParagraphPart(para);
    var first := [evs[0], evs[1]];
    var second := [evs[2], evs[3]];
    assert evs == first + second;
    var s1 := AnsiState(st.buffer + [Lit("")], [Lit("")], st.listing);
    var s2 := AnsiState(st.buffer + [Lit(""), Lit("")], [Lit(""), Lit("")], st.listing);
    var s3 := AnsiState(st.buffer + [Lit(""), Lit(""), Lit(para)], [Lit(""), Lit("")], st.listing);
    var s4 := AnsiState(st.buffer + [Lit(""), Lit(""), Lit(para), Lit("")], [Lit("")], st.listing);
    assert Run(st, first, width) == Step(s2, Pass) by {
      assert Apply(st, evs[0], width) == Step(s1, Pass) by {
        AnsiBlockPieces(st, None, width);
      }
      assert Apply(s1, evs[1], width) == Step(s2, Pass) by {
        AnsiBlockPieces(s1, None, width);
      }
      RunTwo(st, evs[0], evs[1], width);
    }
    assert Run(s2, second, width) == Step(s4, Pass) by {
      assert Apply(s2, evs[2], width) == Step(s3, Pass);
      assert Apply(s3, evs[3], width) == Step(s4, Pass) by {
        assert s3.closes[..1] == [Lit("")];
      }
      RunTwo(s2, evs[2], evs[3], width);
    }
    RunConcat(st, first, second, width);
  }

  lemma ItemSteps(st: AnsiState, isTight: int, mark: char, item: Option<Detail>, text: string, width: int)
    ensures var list := Detail.Ul(isTight, mark);
            Run(st, ItemPart(list, item, text), width)
              == Step(AnsiState(st.buffer + [Lit(""), Lit(ItemOpening(|st.listing|)), Lit(text), Lit("")],
                                st.closes + [Lit("")], st.listing + [Some(list)]), Pass)
  {
    var list := Detail.Ul(isTight, mark);
    var evs := ItemPart(list, item, text);
    var first := [evs[0], evs[1]];
    var second := [evs[2], evs[3]];
    assert evs == first + second;
    var listing := st.listing + [Some(list)];
    var s1 := AnsiState(st.buffer + [Lit("")], st.closes + [Lit("")], listing);
    var s2 := AnsiState(st.buffer + [Lit(""), Lit(ItemOpening(|st.listing|))], st.closes + [Lit(""), Lit("")], listing);
    var s3 := AnsiState(st.buffer + [Lit(""), Lit(ItemOpening(|st.listing|)), Lit(text)], st.closes + [Lit(""), Lit("")], listing);
    var s4 := AnsiState(st.buffer + [Lit(""), Lit(ItemOpening(|st.listing|)), Lit(text), Lit("")], st.closes + [Lit("")], listing);
    assert Apply(st, evs[0], width) == Step(s1, Pass) by {
    }
    assert Apply(s1, evs[1], width) == Step(s2, Pass) by {
      ItemUnderUl(s1, isTight, mark, item, width);
    }
    assert Apply(s2, evs[2], width) == Step(s3, Pass);
    assert Apply(s3, evs[3], width) == Step(s4, Pass) by {
      assert s3.closes[..|s3.closes| - 1] == st.closes + [Lit("")];
    }
    RunTwo(st, evs[0], evs[1], width);
    RunTwo(s2, evs[2], evs[3], width);
    RunConcat(st, first, second, width);
  }

  lemma ClosingSteps(st: AnsiState, list: Detail, width: int)
    requires st.closes == [Lit(""), Lit("")]
    ensures Run(st, ClosingPart(list), width)
              == Step(AnsiState(st.buffer + [Lit(""), Lit("")], [], st.listing), Pass)
  {
    var evs := ClosingPart(list);
    var s1 := AnsiState(st.buffer + [Lit("")], [Lit("")], st.listing);
    var s2 := AnsiState(st.buffer + [Lit(""), Lit("")], [], st.listing);
    assert Apply(st, evs[0], width) == Step(s1, Pass);
    assert Apply(s1, evs[1], width) == Step(s2, Pass);
    RunTwo(st, evs[0], evs[1], width);
  }

  /** The whole stream from an empty stack: the pieces it writes, and one
      more list detail remembered. */
  lemma ParagraphThenListRun(st: AnsiState, isTight: int, mark: char, item: Option<Detail>, para: string, text: string, width: int)
    requires st.closes == []
    ensures var list := Detail.Ul(isTight, mark);
            Run(st, ParagraphThenList(para, list, item, text), width)
              == Step(AnsiState(st.buffer + [Lit(""), Lit(""), Lit(para), Lit("")] +
                                [Lit(""), Lit(ItemOpening(|st.listing|)), Lit(text), Lit("")] + [Lit(""), Lit("")],
                                [], st.listing + [Some(list)]), Pass)
  {
    var list := Detail.Ul(isTight, mark);
    var s1 := AnsiState(st.buffer + [Lit(""), Lit(""), Lit(para), Lit("")], [Lit("")], st.listing);
    var s2 := AnsiState(s1.buffer + [Lit(""), Lit(ItemOpening(|st.listing|)), Lit(text), Lit("")],
                        [Lit(""), Lit("")], st.listing + [Some(list)]);
    ParagraphSteps(st, para, width);
    ItemSteps(s1, isTight, mark, item, text, width);
    ClosingSteps(s2, list, width);
    RunConcat(s1, ItemPart(list, item, text), ClosingPart(list), width);
    RunConcat(st, ParagraphPart(para), ItemPart(list, item, text) + ClosingPart(list), width);
  }

  lemma FlattenPieces(para: string, opening: string, text: string)
    ensures Flatten([Lit(""), Lit(""), Lit(para), Lit("")]) == Chars(para)
    ensures Flatten([Lit(""), Lit(opening), Lit(text), Lit("")]) == Chars(opening) + Chars(text)
    ensures Flatten([Lit(""), Lit("")]) == []
  {
    var e := Lit("");
    assert Glyphs(e) == [];
    assert Flatten([e]) == [] by {
      assert [e][1..] == [];
    }
    assert Flatten([Lit(text), e]) == Chars(text) by {
      assert [Lit(text), e][1..] == [e];
    }
    assert Flatten([Lit(para), e]) == Chars(para) by {
      assert [Lit(para), e][1..] == [e];
    }
    assert Flatten([e, e]) == [] by {
      assert [e, e][1..] == [e];
    }
    assert [e, Lit(""), Lit(para), e][1..] == [e, Lit(para), e];
    assert [e, Lit(para), e][1..] == [Lit(para), e];
    assert [e, Lit(opening), Lit(text), e][1..] == [Lit(opening), Lit(text), e];
    assert [Lit(opening), Lit(text), e][1..] == [Lit(text), e];
  }

  /** Text that starts with a character other than whitespace is returned
      as it is. */
  lemma OutputKeepsText(pieces: seq<Fragment>, x: string)
    requires Flatten(pieces) == Chars(x)
    requires x != [] && !IsSpace(x[0])
    ensures Output(pieces) == Chars(x)
  {
    OutputStripsOnce(pieces);
    assert Chars(x)[0] == Ch(x[0]);
  }

  /** The text `get` makes of the pieces the stream writes. */
  lemma StreamOutput(para: string, opening: string, text: string)
    requires para != [] && !IsSpace(para[0])
    ensures var e := Lit("");
            Output([e, e, Lit(para), e] + [e, Lit(opening), Lit(text), e] + [e, e]) == Chars(para + opening + text)
  {
    var e := Lit("");
    var a := [e, e, Lit(para), e];
    var b := [e, Lit(opening), Lit(text), e];
    var c := [e, e];
    var x, y, z := Chars(para), Chars(opening), Chars(text);
    assert Flatten(a) == x && Flatten(b) == y + z && Flatten(c) == [] by {
      FlattenPieces(para, opening, text);
    }
    assert Flatten(a + b + c) == x + (y + z) by {
      assert a + b + c == a + (b + c);
      FlattenAppend(a, b + c);
      FlattenAppend(b, c);
      assert y + z + [] == y + z;
    }
    assert x + (y + z) == Chars(para + opening + text) by {
      assert Chars(para + opening) == Chars(para) + Chars(opening);
      assert Chars(para + opening + text) == Chars(para + opening) + Chars(text);
    }
    OutputKeepsText(a + b + c, para + opening + text);
  }

  /** Rendering the stream on an emptied renderer: the paragraph, then the
      item indented by the number of list details seen before. */
  lemma RenderParagraphThenList(st: AnsiState, isTight: int, mark: char, item: Option<Detail>, para: string, text: string, width: int)
    requires st.buffer == [] && st.closes == []
    requires para != [] && !IsSpace(para[0])
    ensures var list := Detail.Ul(isTight, mark);
            Render(st, ParagraphThenList(para, list, item, text), width)
              == Rendered(Pass, Chars(para + ItemOpening(|st.listing|) + text), AnsiState([], [], st.listing + [Some(list)]))
  {
    var e := Lit("");
    var level := |st.listing|;
    var list := Detail.Ul(isTight, mark);
    var events := ParagraphThenList(para, list, item, text);
    var a := [e, e, Lit(para), e];
    var b := [e, Lit(ItemOpening(level)), Lit(text), e];
    var c := [e, e];
    var after := AnsiState([], [], st.listing + [Some(list)]);
    var out := Chars(para + ItemOpening(level) + text);
    var r := Run(st, events, width);
    assert r == Step(AnsiState(a + b + c, [], after.listing), Pass) by {
      ParagraphThenListRun(st, isTight, mark, item, para, text, width);
      assert st.buffer + a + b + c == a + b + c;
    }
    assert Output(a + b + c) == out by {
      StreamOutput(para, ItemOpening(level), text);
    }
    assert GetSpec(r.state) == (out, after);
  }

  /** The bindings never forget a list detail, so rendering the same stream
      twice on one renderer indents the item one level deeper the second
      time: `get` is not a function of the document alone. On a fresh
      renderer the first pass indents by nothing and the second by one
      level. */
  lemma ListsAccumulate(st: AnsiState, isTight: int, mark: char, item: Option<Detail>, para: string, text: string, width: int)
    requires st.buffer == [] && st.closes == []
    requires para != [] && !IsSpace(para[0])
    ensures var list := Detail.Ul(isTight, mark);
            var events := ParagraphThenList(para, list, item, text);
            var level := |st.listing|;
            var after := AnsiState([], [], st.listing + [Some(list)]);
            Render(st, events, width) == Rendered(Pass, Chars(para + ItemOpening(level) + text), after)
    ensures var list := Detail.Ul(isTight, mark);
            var events := ParagraphThenList(para, list, item, text);
            var level := |st.listing|;
            var after := AnsiState([], [], st.listing + [Some(list)]);
            Render(after, events, width) == Rendered(Pass, Chars(para + ItemOpening(level + 1) + text), AnsiState([], [], after.listing + [Some(list)]))
    ensures var level := |st.listing|;
            Chars(para + ItemOpening(level) + text) != Chars(para + ItemOpening(level + 1) + text)
  {
    var list := Detail.Ul(isTight, mark);
    var events := ParagraphThenList(para, list, item, text);
    var level := |st.listing|;
    var after := AnsiState([], [], st.listing + [Some(list)]);
    assert Render(st, events, width) == Rendered(Pass, Chars(para + ItemOpening(level) + text), after) by {
      RenderParagraphThenList(st, isTight, mark, item, para, text, width);
    }
    assert Render(after, events, width) == Rendered(Pass, Chars(para + ItemOpening(level + 1) + text), AnsiState([], [], after.listing + [Some(list)])) by {
      RenderParagraphThenList(after, isTight, mark, item, para, text, width);
      assert |after.listing| == level + 1;
    }
    assert Chars(para + ItemOpening(level) + text) != Chars(para + ItemOpening(level + 1) + text) by {
      DeeperIsLonger(para, level, text);
    }
  }

  /** One more level of indentation makes the text two glyphs longer. */
  lemma DeeperIsLonger(para: string, level: nat, text: string)
    ensures |Chars(para + ItemOpening(level + 1) + text)| == |Chars(para + ItemOpening(level) + text)| + 2
  {
  }
}
