/** What the tree renderer guarantees, and where it does not: which enters
    push exactly one element, what each tag becomes, the shape of a fenced
    code block, the stack depth over a whole stream of events, and the reset
    done by `get`. */
module HtmlProperties {
  import opened Wrappers
  import opened Enums
  import opened Details
  import opened Dispatch
  import opened HtmlRender

  /** The detail a handler reads is there and readable: `ol` and `h` need
      their structure, `img` its source text, `a` and block `code` their
      text only when a structure is present. */
  predicate DetailReadable(h: Handler, info: Option<Detail>) {
    match h
    case ParseOl => info.Some? && info.value.Ol?
    case ParseH => info.Some? && info.value.H?
    case ParseA => info.None? || (info.value.A? && info.value.href.text.Some?)
    case ParseImg => info.Some? && info.value.Img? && info.value.src.text.Some?
    case ParseCode => info.None? || (info.value.Code? && info.value.lang.text.Some?)
    case _ => true
  }

  /** The enters that raise the stack by one: a handler exists, it is not
      `_parse_html`, and it can read its detail. */
  predicate HtmlPushes(tag: Tag, info: Option<Detail>) {
    match HandlerOf(tag)
    case None => false
    case Some(h) => h != ParseHtml && DetailReadable(h, info)
  }

  /** Outside `code`, a one-element handler succeeds exactly when it can
      read its detail. */
  lemma OpeningReads(h: Handler, info: Option<Detail>)
    requires h != ParseHtml && h != ParseCode
    ensures Opening(h, info).Ok? <==> DetailReadable(h, info)
  {
  }

  /** Block and span `code` reach the same handler; with its detail it
      pushes `pre` and leaves it open, without one it pushes `code`. */
  lemma CodeDepth(st: TreeState, info: Option<Detail>)
    ensures var s := HandlerSpec(st, ParseCode, info);
            DetailReadable(ParseCode, info) <==> s.outcome.Pass? && |Tags(s.state)| == |Tags(st)| + 1
    ensures var s := HandlerSpec(st, ParseCode, info);
            DetailReadable(ParseCode, info) ==> Tags(s.state)[..|Tags(st)|] == Tags(st) && s.state.rooted == st.rooted
  {
    if info.Some? {
      var withPre := NewSpec(st, "pre", []);
      if info.value.Code? && info.value.lang.text.Some? {
        var withCode := NewSpec(withPre, "code", [("class", Str("language-" + info.value.lang.text.value))]);
        assert |Tags(withCode)| == |Tags(st)| + 2;
        assert Tags(withCode)[..|Tags(st)|] == Tags(st);
      }
    }
  }

  /** An enter raises the stack depth by exactly one, leaving everything
      below untouched, exactly when `HtmlPushes` holds. */
  lemma EnterDepth(st: TreeState, tag: Tag, info: Option<Detail>)
    ensures var s := EnterSpec(st, tag, info);
            HtmlPushes(tag, info) <==> s.outcome.Pass? && |Tags(s.state)| == |Tags(st)| + 1
    ensures var s := EnterSpec(st, tag, info);
            HtmlPushes(tag, info) ==> Tags(s.state)[..|Tags(st)|] == Tags(st) && s.state.rooted == st.rooted
  {
    match HandlerOf(tag)
    case None =>
    case Some(h) =>
      if h == ParseCode {
        CodeDepth(st, info);
      } else if h != ParseHtml {
        OpeningReads(h, info);
      }
  }

  /** The block tags with a `_parse_` method: all but `thead`. */
  lemma BlockHandlers(b: Block)
    ensures Res(BlockTag(b)) in HtmlMethods <==> b != Block.Thead
  {
    NameLookup(BlockTag(b));
  }

  /** The span tags with a `_parse_` method: all but the two math spans and
      wiki links. */
  lemma SpanHandlers(s: Span)
    ensures Res(SpanTag(s)) in HtmlMethods <==> s !in {Span.LatexMath, Span.LatexMathDisplay, Span.WikiLink}
  {
    NameLookup(SpanTag(s));
  }

  /** An enter whose tag has no `_parse_` method changes nothing. */
  lemma UnhandledEnter(st: TreeState, tag: Tag, info: Option<Detail>)
    requires Res(tag) !in HtmlMethods
    ensures EnterSpec(st, tag, info) == Step(st, Pass)
    ensures !HtmlPushes(tag, info)
  {
    NameLookup(tag);
  }

  /** The handlers decode an attribute's text whole and never read its
      `size`: giving every attribute of the detail another `size` changes
      nothing. `_parse_html` is left aside, as it keeps the detail itself. */
  lemma AttributeSizeUnread(st: TreeState, tag: Tag, d: Detail, n: nat)
    requires HandlerOf(tag) != Some(ParseHtml)
    ensures EnterSpec(st, tag, Some(Resized(d, n))) == EnterSpec(st, tag, Some(d))
  {
  }

  /** `_parse_html` appends its detail to the top element without pushing:
      the depth stays the same, so the matching leave pops the parent. This
      takes the append to succeed; bs4 raises ValueError on the `None`
      detail the wrappers always deliver with `html`. */
  lemma HtmlBlockDoesNotPush(st: TreeState, info: Option<Detail>)
    requires Tags(st) != []
    ensures var s := EnterSpec(st, BlockTag(Block.Html), info);
            s.outcome == Pass && |Tags(s.state)| == |Tags(st)| &&
            Tags(s.state)[|Tags(st)| - 1].children == Tags(st)[|Tags(st)| - 1].children + [DetailNode(info)]
    ensures EnterSpec(st, BlockTag(Block.Html), info) == AddSpec(st, DetailNode(info))
    ensures !HtmlPushes(BlockTag(Block.Html), info)
  {
    var s := AddSpec(st, DetailNode(info));
    assert EnterSpec(st, BlockTag(Block.Html), info) == s by {
      assert HandlerOf(BlockTag(Block.Html)) == Some(ParseHtml);
    }
    assert !HtmlPushes(BlockTag(Block.Html), info) by {
      assert HandlerOf(BlockTag(Block.Html)) == Some(ParseHtml);
    }
    assert s.outcome == Pass && |Tags(s.state)| == |Tags(st)|;
  }

  /** The document becomes `body` and a quote `blockquote`. */
  lemma DocumentAndQuote(st: TreeState, info: Option<Detail>)
    ensures EnterSpec(st, BlockTag(Block.Doc), info) == Step(NewSpec(st, "body", []), Pass)
    ensures EnterSpec(st, BlockTag(Block.Quote), info) == Step(NewSpec(st, "blockquote", []), Pass)
  {
  }

  /** An ordered list carries its start number. */
  lemma OrderedListStart(st: TreeState, start: nat, isTight: int, delimiter: char)
    ensures EnterSpec(st, BlockTag(Block.Ol), Some(Detail.Ol(start, isTight, delimiter)))
              == Step(NewSpec(st, "ol", [("start", Number(start))]), Pass)
  {
  }

  /** A heading is named after its level, in decimal. */
  lemma HeadingElement(st: TreeState, level: nat)
    ensures EnterSpec(st, BlockTag(Block.H), Some(Detail.H(level))) == Step(NewSpec(st, "h" + Decimal(level), []), Pass)
  {
  }

  /** A link carries its target when it has a detail, and none without. */
  lemma LinkTarget(st: TreeState, href: Attribute, title: Attribute)
    requires href.text.Some?
    ensures EnterSpec(st, SpanTag(Span.A), Some(Detail.A(href, title)))
              == Step(NewSpec(st, "a", [("href", Str(href.text.value))]), Pass)
    ensures EnterSpec(st, SpanTag(Span.A), None) == Step(NewSpec(st, "a", []), Pass)
  {
  }

  /** An image carries its source. */
  lemma ImageSource(st: TreeState, src: Attribute, title: Attribute)
    requires src.text.Some?
    ensures EnterSpec(st, SpanTag(Span.Img), Some(Detail.Img(src, title)))
              == Step(NewSpec(st, "img", [("src", Str(src.text.value))]), Pass)
  {
  }

  /** Strikethrough becomes `del`, whatever its detail. */
  lemma StrikeElement(st: TreeState, info: Option<Detail>)
    ensures EnterSpec(st, SpanTag(Span.Del), info) == Step(NewSpec(st, "del", []), Pass)
  {
  }

  /** Headings 1 to 6 become `h1` to `h6`. */
  lemma HeadingNames(st: TreeState, level: nat)
    requires 1 <= level <= 6
    ensures EnterSpec(st, BlockTag(Block.H), Some(Detail.H(level)))
              == Step(NewSpec(st, ['h', "0123456789"[level]], []), Pass)
  {
    assert Decimal(level) == [Digit(level)];
    assert "h" + [Digit(level)] == ['h', "0123456789"[level]];
  }

  /** A handler that cannot read its detail raises and pushes nothing. */
  lemma MissingDetailRaises(st: TreeState, title: Attribute)
    ensures EnterSpec(st, BlockTag(Block.Ol), None) == Step(st, Fail(AttributeError))
    ensures EnterSpec(st, BlockTag(Block.H), None) == Step(st, Fail(AttributeError))
    ensures EnterSpec(st, SpanTag(Span.Img), None) == Step(st, Fail(AttributeError))
    ensures EnterSpec(st, SpanTag(Span.A), Some(Detail.A(Attribute(None, 0, 0, 0), title)))
              == Step(st, Fail(AttributeError))
  {
  }

  /** Pushing two elements and finishing the upper one leaves the lower
      one open with the upper as its only child. */
  lemma PushThenFin(st: TreeState, outer: string, outerAttrs: seq<(string, Value)>, inner: string, innerAttrs: seq<(string, Value)>)
    ensures FinSpec(NewSpec(NewSpec(st, outer, outerAttrs), inner, innerAttrs))
              == Step(st.(open := st.open + [Element(outer, outerAttrs, [ElementNode(Element(inner, innerAttrs, []))])]), Pass)
  {
    var o2 := st.open + [Element(outer, outerAttrs, []), Element(inner, innerAttrs, [])];
    var o1 := o2[..|o2| - 1];
    assert NewSpec(NewSpec(st, outer, outerAttrs), inner, innerAttrs) == st.(open := o2);
    assert o1[..|o1| - 1] == st.open;
    assert o1[|o1| - 1] == Element(outer, outerAttrs, []);
    assert AppendChild(Element(outer, outerAttrs, []), ElementNode(Element(inner, innerAttrs, [])))
      == Element(outer, outerAttrs, [ElementNode(Element(inner, innerAttrs, []))]);
  }

  /** The state after a code block with a readable language is entered:
      `pre` is open and holds one empty `code` whose class names the
      language. */
  function CodeOpened(st: TreeState, langText: string): TreeState {
    st.(open := st.open + [Element("pre", [], [ElementNode(Element("code", [("class", Str("language-" + langText))], []))])])
  }

  /** A code block with a readable language pushes one `pre` holding one
      empty `code` whose class names the language. */
  lemma FencedCodeOpens(st: TreeState, info: Attribute, lang: Attribute, fence: char, langText: string)
    requires lang.text == Some(langText)
    ensures EnterSpec(st, BlockTag(Block.Code), Some(Detail.Code(info, lang, fence))) == Step(CodeOpened(st, langText), Pass)
  {
    var detail := Detail.Code(info, lang, fence);
    var attrs := [("class", Str("language-" + langText))];
    assert EnterSpec(st, BlockTag(Block.Code), Some(detail)) == BlockCodeSpec(st, detail);
    assert BlockCodeSpec(st, detail) == FinSpec(NewSpec(NewSpec(st, "pre", []), "code", attrs));
    PushThenFin(st, "pre", [], "code", attrs);
  }

  /** After a fenced code block is entered, the open elements are those
      before plus the `pre`, and its only child is the `code`. */
  lemma CodeOpenedTags(st: TreeState, langText: string)
    ensures Tags(CodeOpened(st, langText))
              == Tags(st) + [Element("pre", [], [ElementNode(Element("code", [("class", Str("language-" + langText))], []))])]
  {
  }

  /** Inline code, and a code block without a detail, push a bare `code`. */
  lemma BareCode(st: TreeState)
    ensures EnterSpec(st, SpanTag(Span.Code), None) == Step(NewSpec(st, "code", []), Pass)
    ensures EnterSpec(st, BlockTag(Block.Code), None) == EnterSpec(st, SpanTag(Span.Code), None)
  {
    assert EnterSpec(st, SpanTag(Span.Code), None) == Step(NewSpec(st, "code", []), Pass) by {
      assert HandlerOf(SpanTag(Span.Code)) == Some(ParseCode);
    }
    assert EnterSpec(st, BlockTag(Block.Code), None) == Step(NewSpec(st, "code", []), Pass) by {
      assert HandlerOf(BlockTag(Block.Code)) == Some(ParseCode);
    }
  }

  /** A code block whose language cannot be read raises after `pre` is
      pushed, so the stack is one deeper than before. */
  lemma CodeWithoutLanguage(st: TreeState, info: Attribute, lang: Attribute, fence: char)
    requires lang.text.None?
    ensures EnterSpec(st, BlockTag(Block.Code), Some(Detail.Code(info, lang, fence)))
              == Step(NewSpec(st, "pre", []), Fail(AttributeError))
  {
  }

  /** The text of a fenced code block lands in `pre`, after the empty `code`. */
  lemma CodeTextGoesToPre(st: TreeState, info: Attribute, lang: Attribute, fence: char, langText: string, text: string)
    requires lang.text == Some(langText)
    ensures var s := Run(st, [Enter(BlockTag(Block.Code), Some(Detail.Code(info, lang, fence))), Track(Text.Code, text)]);
            s.outcome == Pass &&
            Tags(s.state) == Tags(st) + [Element("pre", [], [
              ElementNode(Element("code", [("class", Str("language-" + langText))], [])),
              TextNode(text)])]
  {
    var e0 := Enter(BlockTag(Block.Code), Some(Detail.Code(info, lang, fence)));
    var e1 := Track(Text.Code, text);
    var code := ElementNode(Element("code", [("class", Str("language-" + langText))], []));
    var withCode := CodeOpened(st, langText);
    var last := st.(open := st.open + [Element("pre", [], [code, TextNode(text)])]);
    assert Run(st, [e0, e1]) == Run(withCode, [e1]) by {
      FencedCodeOpens(st, info, lang, fence, langText);
      RunCons(st, [e0, e1]);
      assert [e0, e1][1..] == [e1];
    }
    assert AddSpec(withCode, TextNode(text)) == Step(last, Pass) by {
      var o := withCode.open;
      assert o[..|o| - 1] == st.open;
      assert AppendChild(o[|o| - 1], TextNode(text)) == Element("pre", [], [code, TextNode(text)]);
    }
    assert Run(withCode, [e1]) == Step(last, Pass) by {
      RunCons(withCode, [e1]);
      assert [e1][1..] == [];
    }
    assert Tags(last) == Tags(st) + [Element("pre", [], [code, TextNode(text)])];
  }

  // ------------------------------------------------------------ streams

  predicate AllPush(events: seq<Event>) {
    forall i :: 0 <= i < |events| && events[i].Enter? ==> HtmlPushes(events[i].tag, events[i].info)
  }

  /** With the root on the stack and every enter pushing, a stream that
      never leaves more than it may runs without raising, keeps the root,
      and ends with the stack depth raised by its unmatched enters. */
  lemma {:induction false} RunTracksDepth(st: TreeState, events: seq<Event>)
    requires st.rooted
    requires AllPush(events)
    requires NeverUnder(events, 1 - |Tags(st)|)
    ensures Run(st, events).outcome == Pass
    ensures Run(st, events).state.rooted
    ensures |Tags(Run(st, events).state)| == |Tags(st)| + Nesting(events)
    decreases |events|
  {
    if events != [] {
      var e := events[0];
      NeverUnderTail(events, 1 - |Tags(st)|);
      var s := Apply(st, e);
      match e {
        case Enter(tag, info) =>
          assert HtmlPushes(tag, info);
          EnterDepth(st, tag, info);
        case Leave(_, _) =>
          assert |Tags(st)| >= 2;
        case Track(_, _) =>
          assert |Tags(st)| >= 1;
      }
      assert s.outcome == Pass && s.state.rooted;
      assert |Tags(s.state)| == |Tags(st)| + Delta(e);
      assert AllPush(events[1..]) by {
        forall i | 0 <= i < |events| - 1 && events[1..][i].Enter?
          ensures HtmlPushes(events[1..][i].tag, events[1..][i].info)
        {
          assert events[1..][i] == events[i + 1];
        }
      }
      RunTracksDepth(s.state, events[1..]);
    }
  }

  /** The depth after every prefix of such a stream is the starting depth
      plus the prefix's unmatched enters. */
  lemma DepthAtEveryPrefix(st: TreeState, events: seq<Event>, k: nat)
    requires st.rooted && AllPush(events) && NeverUnder(events, 1 - |Tags(st)|)
    requires k <= |events|
    ensures Run(st, events[..k]).outcome == Pass
    ensures |Tags(Run(st, events[..k]).state)| == |Tags(st)| + Nesting(events[..k])
  {
    var p := events[..k];
    assert AllPush(p) by {
      forall i | 0 <= i < |p| && p[i].Enter? ensures HtmlPushes(p[i].tag, p[i].info) {
        assert p[i] == events[i];
      }
    }
    assert NeverUnder(p, 1 - |Tags(st)|) by {
      forall j | 0 <= j <= |p| ensures Nesting(p[..j]) >= 1 - |Tags(st)| {
        assert p[..j] == events[..j];
      }
    }
    RunTracksDepth(st, p);
  }

  /** A balanced stream of pushing enters, from a fresh renderer, leaves
      only the root on the stack; `get` then returns the document and the
      renderer is fresh again, so a second identical pass returns the same
      document. */
  lemma {:induction false} RenderResets(events: seq<Event>)
    requires Balanced(events) && AllPush(events)
    ensures Render(Fresh(), events).pass == Pass
    ensures Render(Fresh(), events).after == Fresh()
    ensures Render(Render(Fresh(), events).after, events) == Render(Fresh(), events)
  {
    assert |Tags(Fresh())| == 1;
    RunTracksDepth(Fresh(), events);
    var s := Run(Fresh(), events).state;
    assert |Tags(s)| == 1 && s.rooted;
    assert s.open == [];
  }

  // ---------------------------------------------- where the depth drifts

  /** A run continues from the state the first callback leaves when that
      callback does not raise. */
  lemma RunCons(st: TreeState, events: seq<Event>)
    requires events != [] && Apply(st, events[0]).outcome.Pass?
    ensures Run(st, events) == Run(Apply(st, events[0]).state, events[1..])
  {
  }

  /** A document holding one HTML block. */
  function HtmlBlockStream(info: Option<Detail>): seq<Event> {
    [Enter(BlockTag(Block.Doc), None), Enter(BlockTag(Block.Html), info),
     Leave(BlockTag(Block.Html), info), Leave(BlockTag(Block.Doc), None)]
  }

  lemma HtmlBlockStreamOpens(st: TreeState, info: Option<Detail>)
    requires st.rooted && st.open == []
    ensures Run(st, HtmlBlockStream(info))
              == Run(st.(open := [Element("body", [], [])]), HtmlBlockStream(info)[1..])
  {
    var events := HtmlBlockStream(info);
    assert Apply(st, events[0]) == Step(st.(open := [Element("body", [], [])]), Pass) by {
      DocumentAndQuote(st, None);
    }
    RunCons(st, events);
  }

  lemma HtmlBlockStreamAppends(st: TreeState, info: Option<Detail>)
    requires st.rooted && st.open == []
    ensures Run(st.(open := [Element("body", [], [])]), HtmlBlockStream(info)[1..])
              == Run(st.(open := [Element("body", [], [DetailNode(info)])]), HtmlBlockStream(info)[2..])
  {
    var events := HtmlBlockStream(info)[1..];
    var body := Element("body", [], []);
    var t1 := st.(open := [body]);
    var t2 := st.(open := [Element("body", [], [DetailNode(info)])]);
    HtmlBlockDoesNotPush(t1, info);
    assert [body][..0] == [];
    assert AppendChild(body, DetailNode(info)) == Element("body", [], [DetailNode(info)]);
    assert AddSpec(t1, DetailNode(info)) == Step(t2, Pass);
    RunCons(t1, events);
    assert events[1..] == HtmlBlockStream(info)[2..];
  }

  lemma HtmlBlockStreamCloses(st: TreeState, info: Option<Detail>)
    requires st.rooted && st.open == []
    ensures var body := Element("body", [], [DetailNode(info)]);
            Run(st.(open := [body]), HtmlBlockStream(info)[2..])
              == Step(st.(soup := st.soup + [ElementNode(body)], rooted := false), Fail(IndexError))
  {
    var events := HtmlBlockStream(info)[2..];
    var body := Element("body", [], [DetailNode(info)]);
    var t2 := st.(open := [body]);
    var t3 := st.(soup := st.soup + [ElementNode(body)]);
    assert [body][..0] == [];
    assert FinSpec(t2) == AddSpec(st, ElementNode(body));
    RunCons(t2, events);
    assert events[1..] == [Leave(BlockTag(Block.Doc), None)];
    assert Apply(t3, events[1]) == Step(t3.(rooted := false), Fail(IndexError));
  }

  /** An HTML block inside the document: its enter pushes nothing, its leave
      pops the body, and the document's leave pops the root, which raises
      and leaves the stack empty. The detail node left in `body` stands for
      the `None` the handler appends (no detail is ever delivered with
      `html`). bs4 refuses to insert `None` with ValueError; the model lets
      the append succeed, as the lemma above does. */
  lemma HtmlBlockEmptiesStack(st: TreeState, info: Option<Detail>)
    requires st.rooted && st.open == []
    ensures var s := Run(st, HtmlBlockStream(info));
            s.outcome == Fail(IndexError) && Tags(s.state) == [] &&
            s.state.soup == st.soup + [ElementNode(Element("body", [], [DetailNode(info)]))]
  {
    HtmlBlockStreamOpens(st, info);
    HtmlBlockStreamAppends(st, info);
    HtmlBlockStreamCloses(st, info);
  }

  /** Once the root is off the stack, a document's leave raises: there is
      nothing left to append the body to, so a later pass loses its body. */
  lemma UnrootedLosesDocument(st: TreeState)
    requires !st.rooted && st.open == []
    ensures Run(st, [Enter(BlockTag(Block.Doc), None), Leave(BlockTag(Block.Doc), None)])
              == Step(st, Fail(IndexError))
  {
    var again := [Enter(BlockTag(Block.Doc), None), Leave(BlockTag(Block.Doc), None)];
    DocumentAndQuote(st, None);
    RunCons(st, again);
    assert again[1..] == [Leave(BlockTag(Block.Doc), None)];
  }

  /** The start of a table with a header, up to the header's leave. */
  function TableHeaderStream(): seq<Event> {
    [Enter(BlockTag(Block.Doc), None), Enter(BlockTag(Block.Table), None),
     Enter(BlockTag(Block.Thead), None), Leave(BlockTag(Block.Thead), None)]
  }

  /** A table with no detail opens a bare `table`. */
  lemma TableOpens(st: TreeState)
    ensures Apply(st, Enter(BlockTag(Block.Table), None)) == Step(st.(open := st.open + [Element("table", [], [])]), Pass)
  {
  }

  /** A document that starts with a table opens `body`, then `table`,
      whatever follows. */
  lemma DocumentThenTable(st: TreeState, rest: seq<Event>)
    ensures Run(st, [Enter(BlockTag(Block.Doc), None), Enter(BlockTag(Block.Table), None)] + rest)
              == Run(st.(open := st.open + [Element("body", [], []), Element("table", [], [])]), rest)
  {
    var events := [Enter(BlockTag(Block.Doc), None), Enter(BlockTag(Block.Table), None)] + rest;
    var t1 := st.(open := st.open + [Element("body", [], [])]);
    var t2 := st.(open := st.open + [Element("body", [], []), Element("table", [], [])]);
    assert Run(st, events) == Run(t1, events[1..]) by {
      DocumentAndQuote(st, None);
      RunCons(st, events);
    }
    assert Run(t1, events[1..]) == Run(t2, rest) by {
      TableOpens(t1);
      assert t1.open + [Element("table", [], [])] == t2.open;
      RunCons(t1, events[1..]);
      assert events[1..][1..] == rest;
    }
  }

  lemma TableHeaderStreamOpens(st: TreeState)
    ensures Run(st, TableHeaderStream())
              == Run(st.(open := st.open + [Element("body", [], []), Element("table", [], [])]), TableHeaderStream()[2..])
  {
    var head := [Enter(BlockTag(Block.Doc), None), Enter(BlockTag(Block.Table), None)];
    assert TableHeaderStream() == head + TableHeaderStream()[2..];
    DocumentThenTable(st, TableHeaderStream()[2..]);
  }

  lemma TableHeaderStreamCloses(st: TreeState)
    ensures Run(st.(open := st.open + [Element("body", [], []), Element("table", [], [])]), TableHeaderStream()[2..])
              == Step(st.(open := st.open + [Element("body", [], [ElementNode(Element("table", [], []))])]), Pass)
  {
    var events := TableHeaderStream()[2..];
    var body := Element("body", [], []);
    var table := Element("table", [], []);
    var t2 := st.(open := st.open + [body, table]);
    assert Apply(t2, events[0]) == Step(t2, Pass);
    RunCons(t2, events);
    assert events[1..] == [Leave(BlockTag(Block.Thead), None)];
    var o := st.open + [body, table];
    assert o[..|o| - 1][..|o| - 2] == st.open;
    assert AppendChild(body, ElementNode(table)) == Element("body", [], [ElementNode(table)]);
    assert FinSpec(t2) == Step(st.(open := st.open + [Element("body", [], [ElementNode(table)])]), Pass);
  }

  /** `thead` has no handler, so the leave of a table header pops the
      table itself: the table is closed into the body before its header
      rows arrive. */
  lemma TableHeaderClosesTable(st: TreeState)
    ensures var s := Run(st, TableHeaderStream());
            s.outcome == Pass &&
            Tags(s.state) == Tags(st) + [Element("body", [], [ElementNode(Element("table", [], []))])]
  {
    TableHeaderStreamOpens(st);
    TableHeaderStreamCloses(st);
  }
}
