/** The tree renderer (`Html`): an explicit stack of open elements whose
    bottom is the document root. Entering a tag pushes an element, leaving
    any tag pops the top element and appends it to the new top, and text is
    appended to the top.

    The root element is shared between the stack and the renderer's
    reference to the document, so the state keeps the root's children
    (`soup`), whether the root is still on the stack (`rooted`), and the
    elements above it (`open`). `Tags` gives the stack as the code sees it. */
module HtmlRender {
  import opened Wrappers
  import opened Enums
  import opened Details
  import opened Dispatch

  datatype Value = Number(n: int) | Str(s: string)

  datatype Element = Element(name: string, attrs: seq<(string, Value)>, children: seq<Node>)

  /** A child: text, an element, or the detail `_parse_html` appends as is. */
  datatype Node = TextNode(text: string) | ElementNode(element: Element) | DetailNode(info: Option<Detail>)

  /** The name of the document object the tree hangs from. */
  const DocumentName := "[document]"

  function Document(children: seq<Node>): Element {
    Element(DocumentName, [], children)
  }

  function AppendChild(e: Element, n: Node): Element {
    e.(children := e.children + [n])
  }

  datatype TreeState = TreeState(soup: seq<Node>, rooted: bool, open: seq<Element>)

  /** `_tags`: the root (while it is on the stack) and the elements above it. */
  function Tags(st: TreeState): seq<Element> {
    (if st.rooted then [Document(st.soup)] else []) + st.open
  }

  /** The state right after construction or a completed `_get`. */
  function Fresh(): TreeState {
    TreeState([], true, [])
  }

  datatype Step = Step(state: TreeState, outcome: Outcome)

  // ------------------------------------------------------- stack primitives

  /** `_add`: append a child to the top element; IndexError on an empty stack. */
  function AddSpec(st: TreeState, node: Node): (s: Step)
    ensures s.outcome.Fail? <==> Tags(st) == []
    ensures s.outcome.Fail? ==> s == Step(st, Fail(IndexError))
    ensures s.outcome.Pass? ==>
              var n := |Tags(st)|;
              Tags(s.state) == Tags(st)[..n - 1] + [AppendChild(Tags(st)[n - 1], node)]
    ensures s.state.rooted == st.rooted
    ensures !st.rooted ==> s.state.soup == st.soup
  {
    if st.open != [] then
      var n := |st.open|;
      Step(st.(open := st.open[..n - 1] + [AppendChild(st.open[n - 1], node)]), Pass)
    else if st.rooted then
      Step(st.(soup := st.soup + [node]), Pass)
    else
      Step(st, Fail(IndexError))
  }

  /** `_new`: push a new childless element. */
  function NewSpec(st: TreeState, name: string, attrs: seq<(string, Value)>): (s: TreeState)
    ensures Tags(s) == Tags(st) + [Element(name, attrs, [])]
    ensures s.rooted == st.rooted && s.soup == st.soup
  {
    st.(open := st.open + [Element(name, attrs, [])])
  }

  /** `_fin`: pop the top element, then append it to the new top. With only
      the root on the stack the pop succeeds and the append raises, so the
      root leaves the stack; on an empty stack the pop itself raises. */
  function FinSpec(st: TreeState): (s: Step)
    ensures |Tags(st)| >= 2 ==>
              var n := |Tags(st)|;
              s.outcome == Pass &&
              Tags(s.state) == Tags(st)[..n - 2] + [AppendChild(Tags(st)[n - 2], ElementNode(Tags(st)[n - 1]))]
    ensures |Tags(st)| == 1 ==> s.outcome == Fail(IndexError) && Tags(s.state) == []
    ensures |Tags(st)| == 0 ==> s == Step(st, Fail(IndexError))
    ensures s.state.rooted == (st.rooted && |Tags(st)| >= 2)
    ensures !s.state.rooted ==> s.state.soup == st.soup
  {
    if st.open != [] then
      var n := |st.open|;
      AddSpec(st.(open := st.open[..n - 1]), ElementNode(st.open[n - 1]))
    else if st.rooted then
      Step(st.(rooted := false), Fail(IndexError))
    else
      Step(st, Fail(IndexError))
  }

  // ---------------------------------------------------------------- handlers

  /** The `_parse_*` methods the class defines. */
  datatype Handler =
    | ParseDoc | ParseQuote | ParseUl | ParseOl | ParseLi | ParseHr | ParseH | ParseCode
    | ParseHtml | ParseP | ParseTable | ParseTbody | ParseTr | ParseTh | ParseTd
    | ParseEm | ParseStrong | ParseA | ParseImg | ParseDel | ParseU

  /** The methods as `getattr` finds them: `_parse_<name>` under `<name>`. */
  const HtmlMethods: map<string, Handler> := map[
    "doc" := ParseDoc, "quote" := ParseQuote, "ul" := ParseUl,
    "ol" := ParseOl, "li" := ParseLi, "hr" := ParseHr,
    "h" := ParseH, "code" := ParseCode, "html" := ParseHtml,
    "p" := ParseP, "table" := ParseTable, "tbody" := ParseTbody,
    "tr" := ParseTr, "th" := ParseTh, "td" := ParseTd,
    "em" := ParseEm, "strong" := ParseStrong, "a" := ParseA,
    "img" := ParseImg, "del" := ParseDel, "u" := ParseU
  ]

  function Digit(d: nat): char
    requires d < 10
  {
    "0123456789"[d]
  }

  /** `f'{n}'` for a non-negative integer. */
  function Decimal(n: nat): (s: string)
    ensures |s| >= 1
    ensures forall i :: 0 <= i < |s| ==> '0' <= s[i] <= '9'
    decreases n
  {
    if n < 10 then [Digit(n)] else Decimal(n / 10) + [Digit(n % 10)]
  }

  /** The number a string of decimal digits denotes. */
  function DecimalValue(s: string): nat
    requires forall i :: 0 <= i < |s| ==> '0' <= s[i] <= '9'
  {
    if s == [] then 0 else DecimalValue(s[..|s| - 1]) * 10 + (s[|s| - 1] as int - '0' as int)
  }

  /** `Decimal` writes `n` so that it reads back as `n`. */
  lemma {:induction false} DecimalRoundTrip(n: nat)
    ensures DecimalValue(Decimal(n)) == n
    decreases n
  {
    var s := Decimal(n);
    if n < 10 {
      assert s[..0] == [];
    } else {
      DecimalRoundTrip(n / 10);
      assert s[..|s| - 1] == Decimal(n / 10);
    }
  }

  /** The element a one-element handler creates: its name and attributes,
      or the exception raised while reading the detail. Inline `code` is the
      one-element `_s_parse_code`. A detail of another kind than the tag's
      cannot arrive (the wrappers choose the kind by tag); it is read like a
      missing one. */
  function Opening(h: Handler, info: Option<Detail>): (r: Result<(string, seq<(string, Value)>)>)
    requires h != ParseHtml
    ensures r.Err? ==> r == Err(AttributeError) && (h.ParseOl? || h.ParseH? || h.ParseA? || h.ParseImg?)
    ensures r.Ok? ==> r.value.0 != [] && |r.value.1| <= 1
    ensures r.Ok? && r.value.1 != [] ==> (h.ParseOl? || h.ParseA? || h.ParseImg?) && info.Some?
  {
    match h
    case ParseDoc => Ok(("body", []))
    case ParseQuote => Ok(("blockquote", []))
    case ParseUl => Ok(("ul", []))
    case ParseOl =>
      (match info
       case Some(Ol(start, _, _)) => Ok(("ol", [("start", Number(start))]))
       case _ => Err(AttributeError))
    case ParseLi => Ok(("li", []))
    case ParseHr => Ok(("hr", []))
    case ParseH =>
      (match info
       case Some(H(level)) => Ok(("h" + Decimal(level), []))
       case _ => Err(AttributeError))
    case ParseCode => Ok(("code", []))
    case ParseP => Ok(("p", []))
    case ParseTable => Ok(("table", []))
    case ParseTbody => Ok(("tbody", []))
    case ParseTr => Ok(("tr", []))
    case ParseTh => Ok(("th", []))
    case ParseTd => Ok(("td", []))
    case ParseEm => Ok(("em", []))
    case ParseStrong => Ok(("strong", []))
    case ParseA =>
      // `if info:` holds for every structure, so only a missing detail skips `href`
      (match info
       case None => Ok(("a", []))
       case Some(A(href, _)) =>
         (match href.text
          case Some(t) => Ok(("a", [("href", Str(t))]))
          case None => Err(AttributeError))
       case Some(_) => Err(AttributeError))
    case ParseImg =>
      (match info
       case Some(Img(src, _)) =>
         (match src.text
          case Some(t) => Ok(("img", [("src", Str(t))]))
          case None => Err(AttributeError))
       case _ => Err(AttributeError))
    case ParseDel => Ok(("del", []))
    case ParseU => Ok(("u", []))
  }

  /** `_b_parse_code`: push `pre`, then push and finish `code`. The test
      `if info.lang:` is on a structure and always holds, so the class is
      always set; a null language text raises after `pre` is pushed. */
  function BlockCodeSpec(st: TreeState, info: Detail): Step {
    var withPre := NewSpec(st, "pre", []);
    match info
    case Code(_, lang, _) =>
      (match lang.text
       case Some(t) => FinSpec(NewSpec(withPre, "code", [("class", Str("language-" + t))]))
       case None => Step(withPre, Fail(AttributeError)))
    case _ => Step(withPre, Fail(AttributeError))
  }

  /** One `_parse_*` method: `_parse_html` appends its detail, `_parse_code`
      picks the block form when there is a detail, and every other handler
      pushes one element. */
  function HandlerSpec(st: TreeState, h: Handler, info: Option<Detail>): Step {
    if h == ParseHtml then AddSpec(st, DetailNode(info))
    else if h == ParseCode && info.Some? then BlockCodeSpec(st, info.value)
    else
      match Opening(h, info)
      case Err(e) => Step(st, Fail(e))
      case Ok((n, attrs)) => Step(NewSpec(st, n, attrs), Pass)
  }

  /** The handler `_enter` finds for each tag, listed by tag: none for
      `thead`, math and wiki links. */
  function HandlerOf(tag: Tag): Option<Handler> {
    match tag
    case BlockTag(b) =>
      (match b
       case Doc => Some(ParseDoc)
       case Quote => Some(ParseQuote)
       case Ul => Some(ParseUl)
       case Ol => Some(ParseOl)
       case Li => Some(ParseLi)
       case Hr => Some(ParseHr)
       case H => Some(ParseH)
       case Code => Some(ParseCode)
       case Html => Some(ParseHtml)
       case P => Some(ParseP)
       case Table => Some(ParseTable)
       case Thead => None
       case Tbody => Some(ParseTbody)
       case Tr => Some(ParseTr)
       case Th => Some(ParseTh)
       case Td => Some(ParseTd))
    case SpanTag(s) =>
      (match s
       case Em => Some(ParseEm)
       case Strong => Some(ParseStrong)
       case A => Some(ParseA)
       case Img => Some(ParseImg)
       case Code => Some(ParseCode)
       case Del => Some(ParseDel)
       case U => Some(ParseU)
       case _ => None)
  }

  /** `_enter`: run the tag's `_parse_*` method; nothing happens when the
      class has none. */
  function EnterSpec(st: TreeState, tag: Tag, info: Option<Detail>): Step {
    match HandlerOf(tag)
    case Some(h) => HandlerSpec(st, h, info)
    case None => Step(st, Pass)
  }

  /** Looking `_parse_<name>` up by a block's name finds a method exactly
      where `HandlerOf` lists one ... */
  lemma BlockNameFound(b: Block)
    ensures (BlockName(b) in HtmlMethods) == HandlerOf(BlockTag(b)).Some?
  {
    match b
    case Doc => case Quote => case Ul => case Ol => case Li => case Hr => case H => case Code =>
    case Html => case P => case Table => case Thead => case Tbody => case Tr => case Th => case Td =>
  }

  /** ... and it is the method `HandlerOf` lists, for the container blocks ... */
  lemma ContainerNameHandler(b: Block)
    requires b in {Block.Doc, Block.Quote, Block.Ul, Block.Ol, Block.Li}
    ensures HandlerOf(BlockTag(b)).Some? && BlockName(b) in HtmlMethods
    ensures HtmlMethods[BlockName(b)] == HandlerOf(BlockTag(b)).value
  {
    match b
    case Doc => case Quote => case Ul => case Ol => case Li =>
  }

  /** ... for the leaf blocks ... */
  lemma LeafNameHandler(b: Block)
    requires b in {Block.Hr, Block.H, Block.Code, Block.Html, Block.P}
    ensures HandlerOf(BlockTag(b)).Some? && BlockName(b) in HtmlMethods
    ensures HtmlMethods[BlockName(b)] == HandlerOf(BlockTag(b)).value
  {
    match b
    case Hr => case H => case Code => case Html => case P =>
  }

  /** ... and for the table blocks. */
  lemma TableNameHandler(b: Block)
    requires b in {Block.Table, Block.Tbody, Block.Tr, Block.Th, Block.Td}
    ensures HandlerOf(BlockTag(b)).Some? && BlockName(b) in HtmlMethods
    ensures HtmlMethods[BlockName(b)] == HandlerOf(BlockTag(b)).value
  {
    match b
    case Table => case Tbody => case Tr => case Th => case Td =>
  }

  /** All blocks together. */
  lemma BlockNameLookup(b: Block)
    ensures (BlockName(b) in HtmlMethods) == HandlerOf(BlockTag(b)).Some?
    ensures HandlerOf(BlockTag(b)).Some? ==> HtmlMethods[BlockName(b)] == HandlerOf(BlockTag(b)).value
  {
    BlockNameFound(b);
    if b in {Block.Doc, Block.Quote, Block.Ul, Block.Ol, Block.Li} {
      ContainerNameHandler(b);
    } else if b in {Block.Hr, Block.H, Block.Code, Block.Html, Block.P} {
      LeafNameHandler(b);
    } else if b != Block.Thead {
      TableNameHandler(b);
    }
  }

  /** The same for spans, under the resolved name: `del`, not `del_`. */
  lemma SpanNameLookup(s: Span)
    ensures var name := if s == Span.Del then "del" else SpanName(s);
            (name in HtmlMethods) == HandlerOf(SpanTag(s)).Some? &&
            (HandlerOf(SpanTag(s)).Some? ==> HtmlMethods[name] == HandlerOf(SpanTag(s)).value)
  {
    match s
    case Em => case Strong => case A => case Img => case Code =>
    case Del => case LatexMath => case LatexMathDisplay => case WikiLink => case U =>
  }

  /** The lookup by name, for any tag. */
  lemma NameLookup(tag: Tag)
    ensures (Res(tag) in HtmlMethods) == HandlerOf(tag).Some?
    ensures Res(tag) in HtmlMethods ==> HtmlMethods[Res(tag)] == HandlerOf(tag).value
  {
    ResolvedNames(tag);
    match tag
    case BlockTag(b) => BlockNameLookup(b);
    case SpanTag(s) => SpanNameLookup(s);
  }

  /** One callback: enter, leave (always `_fin`), or text (`_track` adds it). */
  function Apply(st: TreeState, e: Event): Step {
    match e
    case Enter(tag, info) => EnterSpec(st, tag, info)
    case Leave(_, _) => FinSpec(st)
    case Track(_, text) => AddSpec(st, TextNode(text))
  }

  /** The callbacks of one parse pass, in order, up to the first that raises. */
  function Run(st: TreeState, events: seq<Event>): (s: Step)
    ensures s.outcome.Fail? ==> s.outcome.exception.IndexError? || s.outcome.exception.AttributeError?
    ensures s.state.rooted ==> st.rooted
    ensures !st.rooted ==> s.state.soup == st.soup
    decreases |events|
  {
    if events == [] then Step(st, Pass)
    else
      var s := Apply(st, events[0]);
      if s.outcome.Fail? then s else Run(s.state, events[1..])
  }

  /** `_get`: return the document and clear its children. The stack is left
      as it is. */
  function GetSpec(st: TreeState): (Element, TreeState) {
    (Document(st.soup), st.(soup := []))
  }

  /** What `get` gives: how the parse pass ended, the document `_get`
      returns and the renderer's state afterwards. An exception raised in a
      callback is reported by ctypes and does not reach `get`, so `_get` runs
      after every pass; `pass` only records which exception, if any, was
      raised. */
  datatype Rendered = Rendered(pass: Outcome, document: Element, after: TreeState)

  /** `get`: a parse pass followed by `_get`, whether or not a callback
      raised. */
  function Render(st: TreeState, events: seq<Event>): (r: Rendered)
    ensures r.pass.Fail? ==> r.pass.exception.IndexError? || r.pass.exception.AttributeError?
    ensures r.document.name == DocumentName && r.after.soup == []
    ensures r.after.rooted ==> st.rooted
    // once the root has left the stack, `get` returns the children it had then
    ensures !st.rooted ==> r.document.children == st.soup
  {
    var s := Run(st, events);
    var got := GetSpec(s.state);
    Rendered(s.outcome, got.0, got.1)
  }

  // ------------------------------------------------------------ the class

  class Html {
    const flags: Flags.Mask
    var soup: seq<Node>
    var rooted: bool
    var open: seq<Element>

    function State(): TreeState
      reads this
    {
      TreeState(soup, rooted, open)
    }

    /** The engine is configured with the effective flags; the stack holds
        only the empty document. */
    constructor (callerFlags: Flags.Mask)
      ensures flags == EffectiveFlags(HtmlClass, callerFlags)
      ensures State() == Fresh()
    {
      var resolved := ResolveFlags(callerFlags, Mro(HtmlClass));
      flags := resolved;
      soup, rooted, open := [], true, [];
    }

    method Add(node: Node) returns (o: Outcome)
      modifies this
      ensures Step(State(), o) == AddSpec(old(State()), node)
    {
      if open != [] {
        var n := |open|;
        open := open[..n - 1] + [AppendChild(open[n - 1], node)];
        o := Pass;
      } else if rooted {
        soup := soup + [node];
        o := Pass;
      } else {
        o := Fail(IndexError);
      }
    }

    /** `_track`: the text's kind plays no part. */
    method Track(kind: Text, text: string) returns (o: Outcome)
      modifies this
      ensures Step(State(), o) == AddSpec(old(State()), TextNode(text))
    {
      o := Add(TextNode(text));
    }

    method Fin() returns (o: Outcome)
      modifies this
      ensures Step(State(), o) == FinSpec(old(State()))
    {
      if open != [] {
        var n := |open|;
        var top := open[n - 1];
        open := open[..n - 1];
        o := Add(ElementNode(top));
      } else if rooted {
        rooted := false;
        o := Fail(IndexError);
      } else {
        o := Fail(IndexError);
      }
    }

    /** `_leave`: every leave, block or span, pops once. */
    method Leave(tag: Tag, info: Option<Detail>) returns (o: Outcome)
      modifies this
      ensures Step(State(), o) == FinSpec(old(State()))
    {
      o := Fin();
    }

    method New(name: string, attrs: seq<(string, Value)>)
      modifies this
      ensures State() == NewSpec(old(State()), name, attrs)
    {
      open := open + [Element(name, attrs, [])];
    }

    method BlockCode(info: Detail) returns (o: Outcome)
      modifies this
      ensures Step(State(), o) == BlockCodeSpec(old(State()), info)
    {
      New("pre", []);
      match info {
        case Code(_, lang, _) =>
          match lang.text {
            case Some(t) =>
              New("code", [("class", Str("language-" + t))]);
              o := Fin();
            case None =>
              o := Fail(AttributeError);
          }
        case _ =>
          o := Fail(AttributeError);
      }
    }

    /** Run one `_parse_*` method. */
    method Handle(h: Handler, info: Option<Detail>) returns (o: Outcome)
      modifies this
      ensures Step(State(), o) == HandlerSpec(old(State()), h, info)
    {
      if h == ParseHtml {
        o := Add(DetailNode(info));
      } else if h == ParseCode && info.Some? {
        o := BlockCode(info.value);
      } else {
        match Opening(h, info) {
          case Err(e) =>
            o := Fail(e);
          case Ok((n, attrs)) =>
            New(n, attrs);
            o := Pass;
        }
      }
    }

    /** `_enter`: look `_parse_<name>` up under the tag's resolved name and
        run it, if the class has one. */
    method Enter(tag: Tag, info: Option<Detail>) returns (o: Outcome)
      modifies this
      ensures Step(State(), o) == EnterSpec(old(State()), tag, info)
    {
      NameLookup(tag);
      var name := Res(tag);
      if name in HtmlMethods {
        o := Handle(HtmlMethods[name], info);
      } else {
        o := Pass;
      }
    }

    method Get() returns (document: Element)
      modifies this
      ensures (document, State()) == GetSpec(old(State()))
    {
      document := Document(soup);
      soup := [];
    }
  }
}
