/** Which document a complete parse pass builds. The engine walks the parsed
    document as a tree: it enters a node, reports the node's text and
    children in order, and leaves it. `Markup` is that tree and `EventsOf`
    the callback stream the walk gives. `BuiltOf` is the element tree the
    walk stands for, read off the markup alone, without a stack; the
    lemmas show that the tree renderer's stack of open elements builds
    exactly that tree. */
module HtmlTree {
  import opened Wrappers
  import opened Enums
  import opened Details
  import opened Dispatch
  import opened HtmlRender
  import opened HtmlProperties

  /** A node of the parsed document: a tag with its detail and children, or
      a run of text. */
  datatype Markup =
    | Tagged(tag: Tag, info: Option<Detail>, kids: seq<Markup>)
    | Leaf(kind: Text, text: string)

  /** The callbacks the walk of one node makes. */
  function Events(m: Markup): seq<Event>
    decreases m
  {
    match m
    case Tagged(tag, info, kids) => [Enter(tag, info)] + EventsOf(kids) + [Leave(tag, info)]
    case Leaf(kind, text) => [Track(kind, text)]
  }

  function EventsOf(ms: seq<Markup>): seq<Event>
    decreases ms
  {
    if ms == [] then [] else Events(ms[0]) + EventsOf(ms[1..])
  }

  /** Every tag in the tree has a handler that pushes an element. */
  predicate Pushing(m: Markup)
    decreases m
  {
    match m
    case Tagged(tag, info, kids) => HtmlPushes(tag, info) && PushingAll(kids)
    case Leaf(_, _) => true
  }

  predicate PushingAll(ms: seq<Markup>)
    decreases ms
  {
    ms == [] || (Pushing(ms[0]) && PushingAll(ms[1..]))
  }

  /** The element a tag stands for before its children are added: `pre`
      holding a finished `code` for a fenced code block, otherwise the one
      element `Opening` names. */
  function Opened(tag: Tag, info: Option<Detail>): Element
    requires HtmlPushes(tag, info)
  {
    var h := HandlerOf(tag).value;
    if h == ParseCode && info.Some? then
      Element("pre", [], [ElementNode(Element("code", [("class", Str("language-" + info.value.lang.text.value))], []))])
    else
      assert Opening(h, info).Ok? by {
        if h != ParseCode {
          OpeningReads(h, info);
        }
      }
      Element(Opening(h, info).value.0, Opening(h, info).value.1, [])
  }

  /** The node a markup node stands for: its element with the children's
      nodes appended in order, or its text. */
  function Built(m: Markup): Node
    requires Pushing(m)
    decreases m
  {
    match m
    case Tagged(tag, info, kids) =>
      var e := Opened(tag, info);
      ElementNode(e.(children := e.children + BuiltOf(kids)))
    case Leaf(_, text) => TextNode(text)
  }

  function BuiltOf(ms: seq<Markup>): seq<Node>
    requires PushingAll(ms)
    decreases ms
  {
    if ms == [] then [] else [Built(ms[0])] + BuiltOf(ms[1..])
  }

  /** The state once `nodes` have been appended, in order, to the top
      element. */
  function AddAll(st: TreeState, nodes: seq<Node>): TreeState {
    if st.open != [] then
      var n := |st.open|;
      st.(open := st.open[..n - 1] + [AppendAll(st.open[n - 1], nodes)])
    else
      st.(soup := st.soup + nodes)
  }

  function AppendAll(e: Element, nodes: seq<Node>): Element {
    e.(children := e.children + nodes)
  }

  // ---------------------------------------------------------------- steps

  lemma AddAllNothing(st: TreeState)
    ensures AddAll(st, []) == st
  {
    if st.open != [] {
      var n := |st.open|;
      assert st.open[n - 1].children + [] == st.open[n - 1].children;
      assert st.open[..n - 1] + [st.open[n - 1]] == st.open;
    } else {
      assert st.soup + [] == st.soup;
    }
  }

  lemma AddAllConcat(st: TreeState, a: seq<Node>, b: seq<Node>)
    ensures AddAll(AddAll(st, a), b) == AddAll(st, a + b)
  {
    if st.open != [] {
      var n := |st.open|;
      var o := AddAll(st, a).open;
      assert o[..n - 1] == st.open[..n - 1];
      assert AppendAll(AppendAll(st.open[n - 1], a), b) == AppendAll(st.open[n - 1], a + b) by {
        assert st.open[n - 1].children + a + b == st.open[n - 1].children + (a + b);
      }
    } else {
      assert st.soup + a + b == st.soup + (a + b);
    }
  }

  /** A run over two streams is the run over the first, continued. */
  lemma {:induction false} RunConcat(st: TreeState, a: seq<Event>, b: seq<Event>)
    requires Run(st, a).outcome == Pass
    ensures Run(st, a + b) == Run(Run(st, a).state, b)
    decreases |a|
  {
    if a == [] {
      assert a + b == b;
    } else {
      assert (a + b)[0] == a[0];
      assert (a + b)[1..] == a[1..] + b;
      RunConcat(Apply(st, a[0]).state, a[1..], b);
    }
  }

  /** A pushing enter leaves `Opened` on top of the stack. */
  lemma EnterOpens(st: TreeState, tag: Tag, info: Option<Detail>)
    requires HtmlPushes(tag, info)
    ensures EnterSpec(st, tag, info) == Step(st.(open := st.open + [Opened(tag, info)]), Pass)
  {
    var h := HandlerOf(tag).value;
    if h == ParseCode && info.Some? {
      PushThenFin(st, "pre", [], "code", [("class", Str("language-" + info.value.lang.text.value))]);
    } else if h != ParseCode {
      OpeningReads(h, info);
    }
  }

  /** Finishing the element pushed on a non-empty stack appends it to the
      element below. */
  lemma CloseAppends(st: TreeState, e: Element)
    requires Tags(st) != []
    ensures FinSpec(st.(open := st.open + [e])) == Step(AddAll(st, [ElementNode(e)]), Pass)
  {
    var o := st.open + [e];
    assert o[..|o| - 1] == st.open;
    if st.open != [] {
      var n := |st.open|;
      assert st.open[..n - 1] + [st.open[n - 1]] == st.open;
    }
  }

  /** The open elements once the children of the top one are complete. */
  lemma PushedAddAll(st: TreeState, e: Element, nodes: seq<Node>)
    ensures AddAll(st.(open := st.open + [e]), nodes) == st.(open := st.open + [AppendAll(e, nodes)])
  {
    var o := st.open + [e];
    assert o[..|o| - 1] == st.open;
  }

  /** A pass that starts with a pushing enter goes on from `Opened` on top. */
  lemma EnterFirst(st: TreeState, tag: Tag, info: Option<Detail>, rest: seq<Event>)
    requires HtmlPushes(tag, info)
    ensures Run(st, [Enter(tag, info)] + rest) == Run(st.(open := st.open + [Opened(tag, info)]), rest)
  {
    EnterOpens(st, tag, info);
    RunCons(st, [Enter(tag, info)] + rest);
    assert ([Enter(tag, info)] + rest)[1..] == rest;
  }

  /** The leave of a completed element appends it to the element below. */
  lemma LeaveLast(st: TreeState, e: Element, tag: Tag, info: Option<Detail>)
    requires Tags(st) != []
    ensures Run(st.(open := st.open + [e]), [Leave(tag, info)]) == Step(AddAll(st, [ElementNode(e)]), Pass)
  {
    CloseAppends(st, e);
    RunCons(st.(open := st.open + [e]), [Leave(tag, info)]);
    assert [Leave(tag, info)][1..] == [];
  }

  // ------------------------------------------------------------ the walk

  /** Walking one node on a non-empty stack raises nothing and appends the
      node's tree to the top element. */
  lemma {:induction false} RunBuilds(st: TreeState, m: Markup)
    requires Tags(st) != [] && Pushing(m)
    ensures Run(st, Events(m)) == Step(AddAll(st, [Built(m)]), Pass)
    decreases m
  {
    match m
    case Leaf(kind, text) =>
      assert Events(m)[1..] == [];
    case Tagged(tag, info, kids) =>
      var e := Opened(tag, info);
      var pushed := st.(open := st.open + [e]);
      var inner := EventsOf(kids);
      var leave := [Leave(tag, info)];
      var closed := AppendAll(e, BuiltOf(kids));
      assert Run(st, Events(m)) == Run(pushed, inner + leave) by {
        assert Events(m) == [Enter(tag, info)] + (inner + leave);
        EnterFirst(st, tag, info, inner + leave);
      }
      assert Run(pushed, inner) == Step(pushed.(open := st.open + [closed]), Pass) by {
        RunBuildsAll(pushed, kids);
        PushedAddAll(st, e, BuiltOf(kids));
      }
      RunConcat(pushed, inner, leave);
      LeaveLast(st, closed, tag, info);
  }

  /** Walking a sequence of nodes appends their trees in order. */
  lemma {:induction false} RunBuildsAll(st: TreeState, ms: seq<Markup>)
    requires Tags(st) != [] && PushingAll(ms)
    ensures Run(st, EventsOf(ms)) == Step(AddAll(st, BuiltOf(ms)), Pass)
    decreases ms
  {
    if ms == [] {
      AddAllNothing(st);
    } else {
      RunBuilds(st, ms[0]);
      var s1 := AddAll(st, [Built(ms[0])]);
      assert |Tags(s1)| == |Tags(st)|;
      RunBuildsAll(s1, ms[1..]);
      RunConcat(st, Events(ms[0]), EventsOf(ms[1..]));
      AddAllConcat(st, [Built(ms[0])], BuiltOf(ms[1..]));
    }
  }

  /** A whole document walked from a fresh renderer: no callback raises,
      `get` returns the document holding exactly the walked tree, and the
      renderer is fresh again. */
  lemma RenderBuilds(ms: seq<Markup>)
    requires PushingAll(ms)
    ensures Render(Fresh(), EventsOf(ms)) == Rendered(Pass, Document(BuiltOf(ms)), Fresh())
  {
    RunBuildsAll(Fresh(), ms);
    assert [] + BuiltOf(ms) == BuiltOf(ms);
  }

  // ------------------------------------------------- walks are balanced

  lemma {:induction false} NestingConcat(a: seq<Event>, b: seq<Event>)
    ensures Nesting(a + b) == Nesting(a) + Nesting(b)
    decreases |a|
  {
    if a == [] {
      assert a + b == b;
    } else {
      assert (a + b)[1..] == a[1..] + b;
      NestingConcat(a[1..], b);
    }
  }

  lemma NeverUnderConcat(a: seq<Event>, b: seq<Event>, floor: int)
    requires NeverUnder(a, floor) && NeverUnder(b, floor - Nesting(a))
    ensures NeverUnder(a + b, floor)
  {
    forall k | 0 <= k <= |a + b|
      ensures Nesting((a + b)[..k]) >= floor
    {
      if k <= |a| {
        assert (a + b)[..k] == a[..k];
      } else {
        assert (a + b)[..k] == a + b[..k - |a|];
        assert a[..|a|] == a;
        NestingConcat(a, b[..k - |a|]);
      }
    }
  }

  lemma AllPushConcat(a: seq<Event>, b: seq<Event>)
    requires AllPush(a) && AllPush(b)
    ensures AllPush(a + b)
  {
    forall i | 0 <= i < |a + b| && (a + b)[i].Enter?
      ensures HtmlPushes((a + b)[i].tag, (a + b)[i].info)
    {
      if i >= |a| {
        assert (a + b)[i] == b[i - |a|];
      }
    }
  }

  /** The walk of a node leaves every node it enters and never leaves more
      than it entered, and every enter in it pushes. */
  lemma {:induction false} WalkBalanced(m: Markup)
    requires Pushing(m)
    ensures Balanced(Events(m)) && AllPush(Events(m))
    decreases m
  {
    match m
    case Leaf(kind, text) =>
      var t := [Track(kind, text)];
      assert t[..0] == [] && t[..1] == t && t[1..] == [];
    case Tagged(tag, info, kids) =>
      var enter := [Enter(tag, info)];
      var leave := [Leave(tag, info)];
      var inner := EventsOf(kids);
      WalkBalancedAll(kids);
      assert enter[..0] == [] && enter[..1] == enter && enter[1..] == [];
      assert leave[..0] == [] && leave[..1] == leave && leave[1..] == [];
      assert Nesting(enter) == 1 && Nesting(leave) == -1;
      assert NeverUnder(enter, 0) && NeverUnder(leave, -1);
      assert NeverUnder(inner, -1);
      NeverUnderConcat(enter, inner, 0);
      NestingConcat(enter, inner);
      NeverUnderConcat(enter + inner, leave, 0);
      NestingConcat(enter + inner, leave);
      AllPushConcat(enter, inner);
      AllPushConcat(enter + inner, leave);
  }

  /** The same for a sequence of nodes: the stream of a whole document is
      one `RenderResets` applies to. */
  lemma {:induction false} WalkBalancedAll(ms: seq<Markup>)
    requires PushingAll(ms)
    ensures Balanced(EventsOf(ms)) && AllPush(EventsOf(ms))
    decreases ms
  {
    if ms == [] {
      assert EventsOf(ms)[..0] == [];
    } else {
      WalkBalanced(ms[0]);
      WalkBalancedAll(ms[1..]);
      NeverUnderConcat(Events(ms[0]), EventsOf(ms[1..]), 0);
      NestingConcat(Events(ms[0]), EventsOf(ms[1..]));
      AllPushConcat(Events(ms[0]), EventsOf(ms[1..]));
    }
  }

  // ---------------------------------------------------- three documents

  /** One step of the walk's definitions, for a tagged node. */
  lemma TaggedWalk(tag: Tag, info: Option<Detail>, kids: seq<Markup>)
    requires HtmlPushes(tag, info) && PushingAll(kids)
    ensures Pushing(Tagged(tag, info, kids))
    ensures Events(Tagged(tag, info, kids)) == [Enter(tag, info)] + EventsOf(kids) + [Leave(tag, info)]
    ensures Built(Tagged(tag, info, kids)) == ElementNode(AppendAll(Opened(tag, info), BuiltOf(kids)))
  {
  }

  /** A node holding just a text: one callback and one text node. */
  lemma TextOnly(kind: Text, x: string)
    ensures PushingAll([Leaf(kind, x)])
    ensures EventsOf([Leaf(kind, x)]) == [Track(kind, x)]
    ensures BuiltOf([Leaf(kind, x)]) == [TextNode(x)]
  {
    assert [Leaf(kind, x)][1..] == [];
    assert Pushing(Leaf(kind, x)) && PushingAll([]);
  }

  lemma OneNode(m: Markup)
    requires Pushing(m)
    ensures PushingAll([m]) && EventsOf([m]) == Events(m) && BuiltOf([m]) == [Built(m)]
  {
    assert [m][1..] == [];
  }

  lemma TwoNodes(m1: Markup, m2: Markup)
    requires Pushing(m1) && Pushing(m2)
    ensures PushingAll([m1, m2]) && EventsOf([m1, m2]) == Events(m1) + Events(m2)
    ensures BuiltOf([m1, m2]) == [Built(m1), Built(m2)]
  {
    assert [m1, m2][1..] == [m2];
    OneNode(m2);
  }

  /** The elements the tags of the documents below stand for. */
  lemma DocOpened()
    ensures HtmlPushes(BlockTag(Block.Doc), None) && Opened(BlockTag(Block.Doc), None) == Element("body", [], [])
  {
    assert HandlerOf(BlockTag(Block.Doc)) == Some(ParseDoc);
  }

  lemma ParagraphOpened()
    ensures HtmlPushes(BlockTag(Block.P), None) && Opened(BlockTag(Block.P), None) == Element("p", [], [])
  {
    assert HandlerOf(BlockTag(Block.P)) == Some(ParseP);
  }

  lemma EmphasisOpened()
    ensures HtmlPushes(SpanTag(Span.Em), None) && Opened(SpanTag(Span.Em), None) == Element("em", [], [])
  {
    assert HandlerOf(SpanTag(Span.Em)) == Some(ParseEm);
  }

  lemma ItemOpened(info: Option<Detail>)
    ensures HtmlPushes(BlockTag(Block.Li), info) && Opened(BlockTag(Block.Li), info) == Element("li", [], [])
  {
    assert HandlerOf(BlockTag(Block.Li)) == Some(ParseLi);
  }

  lemma OrderedOpened(start: nat, isTight: int, delimiter: char)
    ensures var ol := Some(Detail.Ol(start, isTight, delimiter));
            HtmlPushes(BlockTag(Block.Ol), ol) && Opened(BlockTag(Block.Ol), ol) == Element("ol", [("start", Number(start))], [])
  {
    assert HandlerOf(BlockTag(Block.Ol)) == Some(ParseOl);
  }

  lemma HeadingOpened()
    ensures HtmlPushes(BlockTag(Block.H), Some(Detail.H(2))) && Opened(BlockTag(Block.H), Some(Detail.H(2))) == Element("h2", [], [])
  {
    assert HandlerOf(BlockTag(Block.H)) == Some(ParseH);
    assert Decimal(2) == "2";
  }

  /** A tagged node with one child. */
  lemma OneChild(tag: Tag, info: Option<Detail>, m: Markup)
    requires HtmlPushes(tag, info) && Pushing(m)
    ensures Pushing(Tagged(tag, info, [m]))
    ensures Events(Tagged(tag, info, [m])) == [Enter(tag, info)] + Events(m) + [Leave(tag, info)]
    ensures Built(Tagged(tag, info, [m])) == ElementNode(AppendAll(Opened(tag, info), [Built(m)]))
  {
    OneNode(m);
    TaggedWalk(tag, info, [m]);
  }

  /** A document whose body holds one node: `get` returns `body` holding
      that node's tree. */
  lemma DocumentOf(m: Markup)
    requires Pushing(m)
    ensures Render(Fresh(), [Enter(BlockTag(Block.Doc), None)] + Events(m) + [Leave(BlockTag(Block.Doc), None)])
            == Rendered(Pass, Document([ElementNode(Element("body", [], [Built(m)]))]), Fresh())
  {
    var doc := Tagged(BlockTag(Block.Doc), None, [m]);
    DocOpened();
    OneChild(BlockTag(Block.Doc), None, m);
    assert Built(doc) == ElementNode(Element("body", [], [Built(m)])) by {
      assert [] + [Built(m)] == [Built(m)];
    }
    OneNode(doc);
    RenderBuilds([doc]);
  }

  /** The walk of emphasis in a paragraph. */
  lemma EmphasisWalk(kind: Text, x: string)
    ensures var para := Tagged(BlockTag(Block.P), None, [Tagged(SpanTag(Span.Em), None, [Leaf(kind, x)])]);
            Pushing(para) &&
            Built(para) == ElementNode(Element("p", [], [ElementNode(Element("em", [], [TextNode(x)]))])) &&
            Events(para) == [Enter(BlockTag(Block.P), None), Enter(SpanTag(Span.Em), None), Track(kind, x),
                             Leave(SpanTag(Span.Em), None), Leave(BlockTag(Block.P), None)]
  {
    var em := Tagged(SpanTag(Span.Em), None, [Leaf(kind, x)]);
    assert Pushing(em) && Built(em) == ElementNode(Element("em", [], [TextNode(x)])) &&
           Events(em) == [Enter(SpanTag(Span.Em), None), Track(kind, x), Leave(SpanTag(Span.Em), None)] by {
      EmphasisOpened();
      TextOnly(kind, x);
      TaggedWalk(SpanTag(Span.Em), None, [Leaf(kind, x)]);
    }
    ParagraphOpened();
    OneChild(BlockTag(Block.P), None, em);
  }

  /** Emphasis in a paragraph: the document holds `body`, which holds `p`,
      which holds `em`, which holds the text. */
  lemma EmphasisInParagraph(kind: Text, x: string)
    ensures Render(Fresh(), [Enter(BlockTag(Block.Doc), None), Enter(BlockTag(Block.P), None),
                             Enter(SpanTag(Span.Em), None), Track(kind, x), Leave(SpanTag(Span.Em), None),
                             Leave(BlockTag(Block.P), None), Leave(BlockTag(Block.Doc), None)])
            == Rendered(Pass, Document([ElementNode(Element("body", [], [
                 ElementNode(Element("p", [], [ElementNode(Element("em", [], [TextNode(x)]))]))]))]), Fresh())
  {
    var para := Tagged(BlockTag(Block.P), None, [Tagged(SpanTag(Span.Em), None, [Leaf(kind, x)])]);
    EmphasisWalk(kind, x);
    DocumentOf(para);
    assert [Enter(BlockTag(Block.Doc), None)] + Events(para) + [Leave(BlockTag(Block.Doc), None)]
        == [Enter(BlockTag(Block.Doc), None), Enter(BlockTag(Block.P), None),
            Enter(SpanTag(Span.Em), None), Track(kind, x), Leave(SpanTag(Span.Em), None),
            Leave(BlockTag(Block.P), None), Leave(BlockTag(Block.Doc), None)];
  }

  /** The walk of a list item holding one text. */
  lemma ItemWalk(info: Option<Detail>, kind: Text, x: string)
    ensures var li := Tagged(BlockTag(Block.Li), info, [Leaf(kind, x)]);
            Pushing(li) && Built(li) == ElementNode(Element("li", [], [TextNode(x)])) &&
            Events(li) == [Enter(BlockTag(Block.Li), info), Track(kind, x), Leave(BlockTag(Block.Li), info)]
  {
    ItemOpened(info);
    TextOnly(kind, x);
    TaggedWalk(BlockTag(Block.Li), info, [Leaf(kind, x)]);
  }

  /** The walk of an ordered list with two items. */
  lemma OrderedListWalk(start: nat, isTight: int, delimiter: char, first: Option<Detail>, second: Option<Detail>,
                        kind: Text, x: string, y: string)
    ensures var ol := Some(Detail.Ol(start, isTight, delimiter));
            var list := Tagged(BlockTag(Block.Ol), ol, [Tagged(BlockTag(Block.Li), first, [Leaf(kind, x)]),
                                                        Tagged(BlockTag(Block.Li), second, [Leaf(kind, y)])]);
            Pushing(list) &&
            Built(list) == ElementNode(Element("ol", [("start", Number(start))], [
                             ElementNode(Element("li", [], [TextNode(x)])),
                             ElementNode(Element("li", [], [TextNode(y)]))])) &&
            Events(list) == [Enter(BlockTag(Block.Ol), ol),
                             Enter(BlockTag(Block.Li), first), Track(kind, x), Leave(BlockTag(Block.Li), first),
                             Enter(BlockTag(Block.Li), second), Track(kind, y), Leave(BlockTag(Block.Li), second),
                             Leave(BlockTag(Block.Ol), ol)]
  {
    var ol := Some(Detail.Ol(start, isTight, delimiter));
    var li1 := Tagged(BlockTag(Block.Li), first, [Leaf(kind, x)]);
    var li2 := Tagged(BlockTag(Block.Li), second, [Leaf(kind, y)]);
    ItemWalk(first, kind, x);
    ItemWalk(second, kind, y);
    OrderedOpened(start, isTight, delimiter);
    TwoNodes(li1, li2);
    TaggedWalk(BlockTag(Block.Ol), ol, [li1, li2]);
  }

  /** An ordered list starting at `start` with two items: `ol` carries the
      start number and holds the two `li` in the order they came. */
  lemma OrderedListItems(start: nat, isTight: int, delimiter: char, first: Option<Detail>, second: Option<Detail>,
                         kind: Text, x: string, y: string)
    ensures var ol := Some(Detail.Ol(start, isTight, delimiter));
            Render(Fresh(), [Enter(BlockTag(Block.Doc), None), Enter(BlockTag(Block.Ol), ol),
                             Enter(BlockTag(Block.Li), first), Track(kind, x), Leave(BlockTag(Block.Li), first),
                             Enter(BlockTag(Block.Li), second), Track(kind, y), Leave(BlockTag(Block.Li), second),
                             Leave(BlockTag(Block.Ol), ol), Leave(BlockTag(Block.Doc), None)])
            == Rendered(Pass, Document([ElementNode(Element("body", [], [
                 ElementNode(Element("ol", [("start", Number(start))], [
                   ElementNode(Element("li", [], [TextNode(x)])),
                   ElementNode(Element("li", [], [TextNode(y)]))]))]))]), Fresh())
  {
    var ol := Some(Detail.Ol(start, isTight, delimiter));
    var list := Tagged(BlockTag(Block.Ol), ol, [Tagged(BlockTag(Block.Li), first, [Leaf(kind, x)]),
                                                Tagged(BlockTag(Block.Li), second, [Leaf(kind, y)])]);
    OrderedListWalk(start, isTight, delimiter, first, second, kind, x, y);
    DocumentOf(list);
    assert [Enter(BlockTag(Block.Doc), None)] + Events(list) + [Leave(BlockTag(Block.Doc), None)]
        == [Enter(BlockTag(Block.Doc), None), Enter(BlockTag(Block.Ol), ol),
            Enter(BlockTag(Block.Li), first), Track(kind, x), Leave(BlockTag(Block.Li), first),
            Enter(BlockTag(Block.Li), second), Track(kind, y), Leave(BlockTag(Block.Li), second),
            Leave(BlockTag(Block.Ol), ol), Leave(BlockTag(Block.Doc), None)];
  }

  /** A second-level heading: `h2` holding the title text. */
  lemma SecondLevelHeading(kind: Text, title: string)
    ensures Render(Fresh(), [Enter(BlockTag(Block.Doc), None), Enter(BlockTag(Block.H), Some(Detail.H(2))),
                             Track(kind, title), Leave(BlockTag(Block.H), Some(Detail.H(2))),
                             Leave(BlockTag(Block.Doc), None)])
            == Rendered(Pass, Document([ElementNode(Element("body", [], [
                 ElementNode(Element("h2", [], [TextNode(title)]))]))]), Fresh())
  {
    var info := Some(Detail.H(2));
    var h := Tagged(BlockTag(Block.H), info, [Leaf(kind, title)]);
    assert Pushing(h) && Built(h) == ElementNode(Element("h2", [], [TextNode(title)])) &&
           Events(h) == [Enter(BlockTag(Block.H), info), Track(kind, title), Leave(BlockTag(Block.H), info)] by {
      HeadingOpened();
      TextOnly(kind, title);
      TaggedWalk(BlockTag(Block.H), info, [Leaf(kind, title)]);
    }
    DocumentOf(h);
    assert [Enter(BlockTag(Block.Doc), None)] + Events(h) + [Leave(BlockTag(Block.Doc), None)]
        == [Enter(BlockTag(Block.Doc), None), Enter(BlockTag(Block.H), info),
            Track(kind, title), Leave(BlockTag(Block.H), info), Leave(BlockTag(Block.Doc), None)];
  }
}
