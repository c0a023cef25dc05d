/** The terminal renderer (`Ansi`): a buffer of output pieces, a stack of
    pieces that close the open tags, and the list details seen so far.
    Entering a tag appends its opening piece and, for most tags, pushes the
    piece that closes it; leaving any tag pops the top closing piece into
    the buffer; text is appended to the buffer.

    The escape sequences of the terminal-styling library are kept as named
    markers: only where they go matters here, not their bytes. */
module AnsiRender {
  import opened Wrappers
  import opened Enums
  import opened Details
  import opened Dispatch

  /** The styling sequences the handlers use: `ef` switches an effect on,
      `rs` resets it. */
  datatype Marker =
    | EfInverse | RsInverse | EfItalic | RsItalic | EfBold | RsBoldDim
    | EfStrike | RsStrike | EfUnderl | RsUnderl

  /** One piece of output: literal text or a styling sequence. */
  datatype Fragment = Lit(text: string) | Mark(marker: Marker)

  /** `_empty`. */
  const Empty: Fragment := Lit("")

  datatype AnsiState = AnsiState(buffer: seq<Fragment>, closes: seq<Fragment>, listing: seq<Option<Detail>>)

  /** The state right after construction. */
  function Fresh(): AnsiState {
    AnsiState([], [], [])
  }

  datatype Step = Step(state: AnsiState, outcome: Outcome)

  /** `str * int`: `n` copies of `c`, none when `n` is not positive. */
  function Repeat(c: char, n: int): (s: string)
    ensures |s| == if n > 0 then n else 0
    ensures forall i :: 0 <= i < |s| ==> s[i] == c
    decreases if n > 0 then n else 0
  {
    if n <= 0 then [] else [c] + Repeat(c, n - 1)
  }

  // ------------------------------------------------------- buffer primitives

  /** `_add` (and `_track`, whose text kind plays no part). */
  function AddSpec(st: AnsiState, piece: Fragment): (s: AnsiState)
    ensures s.buffer == st.buffer + [piece]
    ensures s.closes == st.closes && s.listing == st.listing
  {
    st.(buffer := st.buffer + [piece])
  }

  /** `_new`: append the opening piece; push the closing one if there is one. */
  function NewSpec(st: AnsiState, open: Fragment, close: Option<Fragment>): (s: AnsiState)
    ensures s.buffer == st.buffer + [open]
    ensures s.closes == if close.Some? then st.closes + [close.value] else st.closes
    ensures s.listing == st.listing
  {
    var appended := st.(buffer := st.buffer + [open]);
    if close.None? then appended else appended.(closes := appended.closes + [close.value])
  }

  /** `_nil`: an empty opening, and an empty closing when asked for one. */
  function NilSpec(st: AnsiState, close: bool): (s: AnsiState)
    ensures s.buffer == st.buffer + [Empty] && s.listing == st.listing
    ensures s.closes == if close then st.closes + [Empty] else st.closes
  {
    NewSpec(st, Empty, if close then Some(Empty) else None)
  }

  /** `_fin`: pop the top closing piece into the buffer; IndexError, with
      nothing changed, when no tag is open. */
  function FinSpec(st: AnsiState): (s: Step)
    ensures s.outcome.Fail? <==> st.closes == []
    ensures s.outcome.Fail? ==> s == Step(st, Fail(IndexError))
    ensures s.outcome.Pass? ==>
              s.state.closes == st.closes[..|st.closes| - 1] &&
              s.state.buffer == st.buffer + [st.closes[|st.closes| - 1]]
    ensures s.state.listing == st.listing
  {
    if st.closes == [] then Step(st, Fail(IndexError))
    else
      var n := |st.closes|;
      Step(AddSpec(st.(closes := st.closes[..n - 1]), st.closes[n - 1]), Pass)
  }

  // ---------------------------------------------------------------- handlers

  /** The `_parse_*` methods the class defines. */
  datatype Handler =
    | ParseDoc | ParseQuote | ParseUl | ParseOl | ParseLi | ParseHr | ParseH | ParseCode
    | ParseP | ParseEm | ParseStrong | ParseA | ParseImg | ParseDel | ParseU

  /** The methods as `getattr` finds them: `_parse_<name>` under `<name>`. */
  const AnsiMethods: map<string, Handler> := map[
    "doc" := ParseDoc, "quote" := ParseQuote, "ul" := ParseUl,
    "ol" := ParseOl, "li" := ParseLi, "hr" := ParseHr,
    "h" := ParseH, "code" := ParseCode, "p" := ParseP,
    "em" := ParseEm, "strong" := ParseStrong, "a" := ParseA,
    "img" := ParseImg, "del" := ParseDel, "u" := ParseU
  ]

  /** The list mark helper `_parse_li` looks up by the class name of the
      enclosing list's detail. The `ul` helper reads the mark; the `ol`
      helper formats with a name that is defined nowhere, so it raises
      NameError before it can advance the start number; any other class
      has no helper, and the lookup raises AttributeError. */
  function FetchLiMark(info: Option<Detail>): (r: Result<char>)
    ensures r.Ok? <==> info.Some? && info.value.Ul?
    ensures r.Ok? ==> r.value == info.value.mark
    ensures r == Err(NameError) <==> info.Some? && info.value.Ol?
    ensures r.Err? ==> r.exception == NameError || r.exception == AttributeError
  {
    var name := ClassNameLower(info);
    if name == "ul" && info.Some? && info.value.Ul? then Ok(info.value.mark)
    else if name == "ol" then Err(NameError)
    else Err(AttributeError)
  }

  /** The opening piece of a list item at nesting `level`. The fetched mark
      is overwritten with `-`. */
  function ItemOpening(level: nat): (o: string)
    ensures |o| == 2 * level + 3 && o[0] == '\n'
    ensures forall i :: 1 <= i <= 2 * level ==> o[i] == ' '
    ensures o[2 * level + 1..] == "- "
  {
    var o := "\n" + Repeat(' ', 2 * level) + "- ";
    assert o[2 * level + 1..] == "- ";
    o
  }

  /** `_parse_li`: the level is one less than the number of list details
      ever seen, and the mark comes from the last of them. */
  function LiSpec(st: AnsiState): Step {
    if st.listing == [] then Step(st, Fail(IndexError))
    else
      var level := |st.listing| - 1;
      match FetchLiMark(st.listing[level])
      case Err(e) => Step(st, Fail(e))
      case Ok(_) => Step(NewSpec(st, Lit(ItemOpening(level)), Some(Empty)), Pass)
  }

  /** `_parse_img`: the source on a line of its own; no closing piece. */
  function ImgSpec(st: AnsiState, info: Option<Detail>): (s: Step)
    ensures s.outcome.Pass? <==> info.Some? && info.value.Img? && info.value.src.text.Some?
    ensures s.outcome.Fail? ==> s == Step(st, Fail(AttributeError))
    ensures s.outcome.Pass? ==>
              s.state == AddSpec(st, Lit("\n" + info.value.src.text.value + "\n"))
  {
    match info
    case Some(Img(src, _)) =>
      (match src.text
       case Some(t) => Step(NewSpec(st, Lit("\n" + t + "\n"), None), Pass)
       case None => Step(st, Fail(AttributeError)))
    case _ => Step(st, Fail(AttributeError))
  }

  /** What each handler does. `width` is the terminal width a rule reads. */
  function HandlerSpec(st: AnsiState, h: Handler, info: Option<Detail>, width: int): Step {
    match h
    case ParseDoc => Step(NilSpec(st, true), Pass)
    case ParseQuote => Step(NewSpec(st, Mark(EfInverse), Some(Mark(RsInverse))), Pass)
    case ParseUl => Step(NilSpec(st.(listing := st.listing + [info]), true), Pass)
    case ParseOl => Step(NilSpec(st.(listing := st.listing + [info]), true), Pass)
    case ParseLi => LiSpec(st)
    case ParseHr => Step(NewSpec(st, Lit(Repeat('-', width)), None), Pass)
    case ParseH => Step(NewSpec(st, Lit("\n# "), Some(Lit(" #\n"))), Pass)
    case ParseCode => Step(NewSpec(st, Mark(EfInverse), Some(Mark(RsInverse))), Pass)
    case ParseP => Step(NilSpec(st, true), Pass)
    case ParseEm => Step(NewSpec(st, Mark(EfItalic), Some(Mark(RsItalic))), Pass)
    case ParseStrong => Step(NewSpec(st, Mark(EfBold), Some(Mark(RsBoldDim))), Pass)
    case ParseA => Step(NilSpec(st, true), Pass)
    case ParseImg => ImgSpec(st, info)
    case ParseDel => Step(NewSpec(st, Mark(EfStrike), Some(Mark(RsStrike))), Pass)
    case ParseU => Step(NewSpec(st, Mark(EfUnderl), Some(Mark(RsUnderl))), Pass)
  }

  /** The handler `_enter` finds for each tag, listed by tag: none for html
      and the table tags, math and wiki links. */
  function HandlerOf(tag: Tag): Option<Handler> {
    match tag
    case BlockTag(b) =>
      (match b
       case Doc => Some(ParseDoc)
       case Quote => Some(ParseQuote)
       case Ul => Some(ParseUl)
       case Ol => Some(ParseOl)
       case Li => Some(ParseLi)
       case Hr => Some(ParseHr)
       case H => Some(ParseH)
       case Code => Some(ParseCode)
       case P => Some(ParseP)
       case _ => None)
    case SpanTag(s) =>
      (match s
       case Em => Some(ParseEm)
       case Strong => Some(ParseStrong)
       case A => Some(ParseA)
       case Img => Some(ParseImg)
       case Code => Some(ParseCode)
       case Del => Some(ParseDel)
       case U => Some(ParseU)
       case _ => None)
  }

  /** `_enter`: run the tag's `_parse_*` method; nothing happens when the
      class has none. */
  function EnterSpec(st: AnsiState, tag: Tag, info: Option<Detail>, width: int): Step {
    match HandlerOf(tag)
    case Some(h) => HandlerSpec(st, h, info, width)
    case None => Step(st, Pass)
  }

  /** Looking `_parse_<name>` up by a block's name finds the handler
      `HandlerOf` lists, and nothing where it lists none. */
  lemma BlockNameLookup(b: Block)
    ensures (BlockName(b) in AnsiMethods) == HandlerOf(BlockTag(b)).Some?
    ensures HandlerOf(BlockTag(b)).Some? ==> AnsiMethods[BlockName(b)] == HandlerOf(BlockTag(b)).value
  {
    match b
    case Doc => case Quote => case Ul => case Ol => case Li => case Hr => case H => case Code =>
    case Html => case P => case Table => case Thead => case Tbody => case Tr => case Th => case Td =>
  }

  /** The same for spans, under the resolved name: `del`, not `del_`. */
  lemma SpanNameLookup(s: Span)
    ensures var name := if s == Span.Del then "del" else SpanName(s);
            (name in AnsiMethods) == HandlerOf(SpanTag(s)).Some? &&
            (HandlerOf(SpanTag(s)).Some? ==> AnsiMethods[name] == HandlerOf(SpanTag(s)).value)
  {
    match s
    case Em => case Strong => case A => case Img => case Code =>
    case Del => case LatexMath => case LatexMathDisplay => case WikiLink => case U =>
  }

  /** The lookup by name, for any tag. */
  lemma NameLookup(tag: Tag)
    ensures (Res(tag) in AnsiMethods) == HandlerOf(tag).Some?
    ensures Res(tag) in AnsiMethods ==> AnsiMethods[Res(tag)] == HandlerOf(tag).value
  {
    ResolvedNames(tag);
    match tag
    case BlockTag(b) => BlockNameLookup(b);
    case SpanTag(s) => SpanNameLookup(s);
  }

  /** One callback: enter, leave (always `_fin`), or text (`_track` adds it). */
  function Apply(st: AnsiState, e: Event, width: int): Step {
    match e
    case Enter(tag, info) => EnterSpec(st, tag, info, width)
    case Leave(_, _) => FinSpec(st)
    case Track(_, text) => Step(AddSpec(st, Lit(text)), Pass)
  }

  /** The callbacks of one parse pass, in order, up to the first that raises. */
  function Run(st: AnsiState, events: seq<Event>, width: int): (s: Step)
    ensures s.outcome.Fail? ==> !s.outcome.exception.ValueError?
    decreases |events|
  {
    if events == [] then Step(st, Pass)
    else
      var s := Apply(st, events[0], width);
      if s.outcome.Fail? then s else Run(s.state, events[1..], width)
  }

  // ------------------------------------------------------------- the output

  /** One output character: a character of text, or a styling sequence
      (which starts with an escape character, never whitespace). */
  datatype Glyph = Ch(c: char) | Esc(marker: Marker)

  function Glyphs(piece: Fragment): (g: seq<Glyph>)
    ensures piece.Lit? ==> |g| == |piece.text| && forall i :: 0 <= i < |g| ==> g[i] == Ch(piece.text[i])
  {
    match piece
    case Lit(text) => seq(|text|, i requires 0 <= i < |text| => Ch(text[i]))
    case Mark(m) => [Esc(m)]
  }

  /** `''.join(pieces)`. */
  function Flatten(pieces: seq<Fragment>): seq<Glyph> {
    if pieces == [] then [] else Glyphs(pieces[0]) + Flatten(pieces[1..])
  }

  /** `str.isspace` for one character. */
  predicate IsSpace(c: char) {
    '\t' <= c <= '\r' || '\U{1c}' <= c <= ' ' || c == '\U{85}' || c == '\U{a0}' ||
    c == '\U{1680}' || '\U{2000}' <= c <= '\U{200a}' || c == '\U{2028}' || c == '\U{2029}' ||
    c == '\U{202f}' || c == '\U{205f}' || c == '\U{3000}'
  }

  /** Drop leading glyphs that are characters satisfying `strip`:
      `lstrip()` when `strip` is `IsSpace`, `lstrip('\n')` when it is the
      newline test. */
  function LStripBy(g: seq<Glyph>, strip: char -> bool): (r: seq<Glyph>)
    ensures |r| <= |g| && r == g[|g| - |r|..]
    ensures r == [] || !(r[0].Ch? && strip(r[0].c))
    ensures forall i :: 0 <= i < |g| - |r| ==> g[i].Ch? && strip(g[i].c)
    decreases |g|
  {
    if g != [] && g[0].Ch? && strip(g[0].c) then LStripBy(g[1..], strip) else g
  }

  predicate IsNewline(c: char) {
    c == '\n'
  }

  /** What `_get` returns for the pieces in the buffer: the joined pieces
      without their leading whitespace. A newline is whitespace, so the
      second strip finds nothing left to remove. */
  function Output(pieces: seq<Fragment>): (g: seq<Glyph>)
    ensures var joined := Flatten(pieces);
            |g| <= |joined| && g == joined[|joined| - |g|..] &&
            (g == [] || !(g[0].Ch? && IsSpace(g[0].c))) &&
            forall i :: 0 <= i < |joined| - |g| ==> joined[i].Ch? && IsSpace(joined[i].c)
  {
    var r := LStripBy(Flatten(pieces), IsSpace);
    assert LStripBy(r, IsNewline) == r by {
      assert !(r != [] && r[0].Ch? && IsNewline(r[0].c));
    }
    LStripBy(r, IsNewline)
  }

  /** `_get`: join and empty the buffer. The closing stack and the list
      details are left as they are. */
  function GetSpec(st: AnsiState): (seq<Glyph>, AnsiState) {
    (Output(st.buffer), st.(buffer := []))
  }

  /** What `get` gives: how the parse pass ended, the text `_get` returns
      and the renderer's state afterwards. An exception raised in a callback
      is reported by ctypes and does not reach `get`, so `_get` runs after
      every pass; `pass` only records which exception, if any, was raised. */
  datatype Rendered = Rendered(pass: Outcome, text: seq<Glyph>, after: AnsiState)

  /** `get`: a parse pass followed by `_get`, whether or not a callback
      raised. */
  function Render(st: AnsiState, events: seq<Event>, width: int): (r: Rendered)
    ensures r.pass.Fail? ==> !r.pass.exception.ValueError?
    ensures r.after.buffer == []
    ensures r.text == [] || !(r.text[0].Ch? && IsSpace(r.text[0].c))
  {
    var s := Run(st, events, width);
    var got := GetSpec(s.state);
    Rendered(s.outcome, got.0, got.1)
  }

  // ------------------------------------------------------------ the class

  class Ansi {
    const flags: Flags.Mask
    var buffer: seq<Fragment>
    var closes: seq<Fragment>
    var listing: seq<Option<Detail>>

    function State(): AnsiState
      reads this
    {
      AnsiState(buffer, closes, listing)
    }

    /** The engine is configured with the effective flags; buffer, closing
        stack and list details start empty. */
    constructor (callerFlags: Flags.Mask)
      ensures flags == EffectiveFlags(AnsiClass, callerFlags)
      ensures State() == Fresh()
    {
      var resolved := ResolveFlags(callerFlags, Mro(AnsiClass));
      flags := resolved;
      buffer, closes, listing := [], [], [];
    }

    method Add(piece: Fragment)
      modifies this
      ensures State() == AddSpec(old(State()), piece)
    {
      buffer := buffer + [piece];
    }

    /** `_track`: the text's kind plays no part. */
    method Track(kind: Text, text: string)
      modifies this
      ensures State() == AddSpec(old(State()), Lit(text))
    {
      Add(Lit(text));
    }

    method Fin() returns (o: Outcome)
      modifies this
      ensures Step(State(), o) == FinSpec(old(State()))
    {
      if closes == [] {
        o := Fail(IndexError);
      } else {
        var n := |closes|;
        var top := closes[n - 1];
        closes := closes[..n - 1];
        Add(top);
        o := Pass;
      }
    }

    /** `_leave`: every leave, block or span, pops once. */
    method Leave(tag: Tag, info: Option<Detail>) returns (o: Outcome)
      modifies this
      ensures Step(State(), o) == FinSpec(old(State()))
    {
      o := Fin();
    }

    method New(open: Fragment, close: Option<Fragment>)
      modifies this
      ensures State() == NewSpec(old(State()), open, close)
    {
      buffer := buffer + [open];
      if close.None? {
        return;
      }
      closes := closes + [close.value];
    }

    method Nil(close: bool)
      modifies this
      ensures State() == NilSpec(old(State()), close)
    {
      New(Empty, if close then Some(Empty) else None);
    }

    method Li() returns (o: Outcome)
      modifies this
      ensures Step(State(), o) == LiSpec(old(State()))
    {
      if listing == [] {
        o := Fail(IndexError);
        return;
      }
      var level := |listing| - 1;
      var mark := FetchLiMark(listing[level]);
      if mark.Err? {
        o := Fail(mark.exception);
        return;
      }
      New(Lit(ItemOpening(level)), Some(Empty));
      o := Pass;
    }

    method Img(info: Option<Detail>) returns (o: Outcome)
      modifies this
      ensures Step(State(), o) == ImgSpec(old(State()), info)
    {
      match info {
        case Some(Img(src, _)) =>
          match src.text {
            case Some(t) =>
              New(Lit("\n" + t + "\n"), None);
              o := Pass;
            case None =>
              o := Fail(AttributeError);
          }
        case _ =>
          o := Fail(AttributeError);
      }
    }

    /** Run one `_parse_*` method. */
    method Handle(h: Handler, info: Option<Detail>, width: int) returns (o: Outcome)
      modifies this
      ensures Step(State(), o) == HandlerSpec(old(State()), h, info, width)
    {
      o := Pass;
      match h {
        case ParseDoc => Nil(true);
        case ParseQuote => New(Mark(EfInverse), Some(Mark(RsInverse)));
        case ParseUl =>
          listing := listing + [info];
          Nil(true);
        case ParseOl =>
          listing := listing + [info];
          Nil(true);
        case ParseLi => o := Li();
        case ParseHr => New(Lit(Repeat('-', width)), None);
        case ParseH => New(Lit("\n# "), Some(Lit(" #\n")));
        case ParseCode => New(Mark(EfInverse), Some(Mark(RsInverse)));
        case ParseP => Nil(true);
        case ParseEm => New(Mark(EfItalic), Some(Mark(RsItalic)));
        case ParseStrong => New(Mark(EfBold), Some(Mark(RsBoldDim)));
        case ParseA => Nil(true);
        case ParseImg => o := Img(info);
        case ParseDel => New(Mark(EfStrike), Some(Mark(RsStrike)));
        case ParseU => New(Mark(EfUnderl), Some(Mark(RsUnderl)));
      }
    }

    /** `_enter`: look `_parse_<name>` up under the tag's resolved name and
        run it, if the class has one. */
    method Enter(tag: Tag, info: Option<Detail>, width: int) returns (o: Outcome)
      modifies this
      ensures Step(State(), o) == EnterSpec(old(State()), tag, info, width)
    {
      NameLookup(tag);
      var name := Res(tag);
      if name in AnsiMethods {
        o := Handle(AnsiMethods[name], info, width);
      } else {
        o := Pass;
      }
    }

    /** `_get`: pop the buffer from the front, one piece per element it held
        at the start, joining the pieces; then strip leading whitespace and
        leading newlines. */
    method Get() returns (text: seq<Glyph>)
      modifies this
      ensures (text, State()) == GetSpec(old(State()))
    {
      var joined: seq<Glyph> := [];
      var count := |buffer|;
      var i := 0;
      while i < count
        invariant 0 <= i <= count && |buffer| == count - i
        invariant joined + Flatten(buffer) == Flatten(old(buffer))
        invariant closes == old(closes) && listing == old(listing)
      {
        var first := buffer[0];
        assert Flatten(buffer) == Glyphs(first) + Flatten(buffer[1..]);
        buffer := buffer[1..];
        joined := joined + Glyphs(first);
        i := i + 1;
      }
      assert buffer == [];
      text := LStripBy(LStripBy(joined, IsSpace), IsNewline);
      assert joined == Flatten(old(buffer));
      assert text == Output(old(buffer));
      assert State() == old(State()).(buffer := []);
    }
  }
}
