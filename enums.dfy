/** The event vocabulary of md4c: block tags, span tags, text kinds and table
    cell alignments, each an enumeration numbered from 0 in declaration order. */
module Enums {
  import opened Wrappers

  datatype Block = Doc | Quote | Ul | Ol | Li | Hr | H | Code | Html | P
                 | Table | Thead | Tbody | Tr | Th | Td

  datatype Span = Em | Strong | A | Img | Code | Del | LatexMath
                | LatexMathDisplay | WikiLink | U

  datatype Text = Normal | NullChar | Br | SoftBr | Entity | Code | Html | LatexMath

  datatype Align = Default | Left | Center | Right

  // ---------------------------------------------------------------- Block

  function BlockOrdinal(b: Block): (n: nat)
    ensures n < 16
  {
    match b
    case Doc => 0  case Quote => 1  case Ul => 2  case Ol => 3
    case Li => 4   case Hr => 5     case H => 6   case Code => 7
    case Html => 8 case P => 9      case Table => 10 case Thead => 11
    case Tbody => 12 case Tr => 13  case Th => 14 case Td => 15
  }

  /** `Block(n)`: the member with ordinal `n`, or ValueError. */
  function BlockOf(n: int): (r: Option<Block>)
    ensures r.Some? <==> 0 <= n < 16
    ensures r.Some? ==> BlockOrdinal(r.value) == n
  {
    if n == 0 then Some(Block.Doc) else if n == 1 then Some(Block.Quote)
    else if n == 2 then Some(Block.Ul) else if n == 3 then Some(Block.Ol)
    else if n == 4 then Some(Block.Li) else if n == 5 then Some(Block.Hr)
    else if n == 6 then Some(Block.H) else if n == 7 then Some(Block.Code)
    else if n == 8 then Some(Block.Html) else if n == 9 then Some(Block.P)
    else if n == 10 then Some(Block.Table) else if n == 11 then Some(Block.Thead)
    else if n == 12 then Some(Block.Tbody) else if n == 13 then Some(Block.Tr)
    else if n == 14 then Some(Block.Th) else if n == 15 then Some(Block.Td)
    else None
  }

  /** The member's Python name, as the enumeration declares it. */
  function BlockName(b: Block): string {
    match b
    case Doc => "doc"   case Quote => "quote" case Ul => "ul"       case Ol => "ol"
    case Li => "li"     case Hr => "hr"       case H => "h"         case Code => "code"
    case Html => "html" case P => "p"         case Table => "table" case Thead => "thead"
    case Tbody => "tbody" case Tr => "tr"     case Th => "th"       case Td => "td"
  }

  // ----------------------------------------------------------------- Span

  function SpanOrdinal(s: Span): (n: nat)
    ensures n < 10
  {
    match s
    case Em => 0 case Strong => 1 case A => 2 case Img => 3 case Code => 4
    case Del => 5 case LatexMath => 6 case LatexMathDisplay => 7
    case WikiLink => 8 case U => 9
  }

  function SpanOf(n: int): (r: Option<Span>)
    ensures r.Some? <==> 0 <= n < 10
    ensures r.Some? ==> SpanOrdinal(r.value) == n
  {
    if n == 0 then Some(Span.Em) else if n == 1 then Some(Span.Strong)
    else if n == 2 then Some(Span.A) else if n == 3 then Some(Span.Img)
    else if n == 4 then Some(Span.Code) else if n == 5 then Some(Span.Del)
    else if n == 6 then Some(Span.LatexMath) else if n == 7 then Some(Span.LatexMathDisplay)
    else if n == 8 then Some(Span.WikiLink) else if n == 9 then Some(Span.U)
    else None
  }

  /** Strikethrough is declared `del_`, since `del` is a Python keyword. */
  function SpanName(s: Span): string {
    match s
    case Em => "em" case Strong => "strong" case A => "a" case Img => "img"
    case Code => "code" case Del => "del_" case LatexMath => "latex_math"
    case LatexMathDisplay => "latex_math_display" case WikiLink => "wiki_link"
    case U => "u"
  }

  // ----------------------------------------------------------------- Text

  function TextOrdinal(t: Text): (n: nat)
    ensures n < 8
  {
    match t
    case Normal => 0 case NullChar => 1 case Br => 2 case SoftBr => 3
    case Entity => 4 case Code => 5 case Html => 6 case LatexMath => 7
  }

  function TextOf(n: int): (r: Option<Text>)
    ensures r.Some? <==> 0 <= n < 8
    ensures r.Some? ==> TextOrdinal(r.value) == n
  {
    if n == 0 then Some(Text.Normal) else if n == 1 then Some(Text.NullChar)
    else if n == 2 then Some(Text.Br) else if n == 3 then Some(Text.SoftBr)
    else if n == 4 then Some(Text.Entity) else if n == 5 then Some(Text.Code)
    else if n == 6 then Some(Text.Html) else if n == 7 then Some(Text.LatexMath)
    else None
  }

  function TextName(t: Text): string {
    match t
    case Normal => "normal" case NullChar => "nullchar" case Br => "br"
    case SoftBr => "soft_br" case Entity => "entity" case Code => "code"
    case Html => "html" case LatexMath => "latex_math"
  }

  // ---------------------------------------------------------------- Align

  function AlignOrdinal(a: Align): (n: nat)
    ensures n < 4
  {
    match a
    case Default => 0 case Left => 1 case Center => 2 case Right => 3
  }

  function AlignOf(n: int): (r: Option<Align>)
    ensures r.Some? <==> 0 <= n < 4
    ensures r.Some? ==> AlignOrdinal(r.value) == n
  {
    if n == 0 then Some(Align.Default) else if n == 1 then Some(Align.Left)
    else if n == 2 then Some(Align.Center) else if n == 3 then Some(Align.Right)
    else None
  }

  // --------------------------------------------------------------- lemmas

  /** Ordinals identify members: converting a member to its ordinal and back
      gives the member again, in every family. */
  lemma OrdinalsRoundTrip(b: Block, s: Span, t: Text, a: Align)
    ensures BlockOf(BlockOrdinal(b)) == Some(b)
    ensures SpanOf(SpanOrdinal(s)) == Some(s)
    ensures TextOf(TextOrdinal(t)) == Some(t)
    ensures AlignOf(AlignOrdinal(a)) == Some(a)
  {
  }

  /** Distinct members have distinct names within a family. */
  lemma NamesDistinct(b1: Block, b2: Block, s1: Span, s2: Span)
    ensures BlockName(b1) == BlockName(b2) ==> b1 == b2
    ensures SpanName(s1) == SpanName(s2) ==> s1 == s2
  {
  }

  /** `code` is declared in Block, Span and Text; `latex_math` in Span and Text. */
  lemma SharedNames()
    ensures BlockName(Block.Code) == SpanName(Span.Code) == TextName(Text.Code) == "code"
    ensures SpanName(Span.LatexMath) == TextName(Text.LatexMath) == "latex_math"
    ensures BlockName(Block.Html) == TextName(Text.Html) == "html"
  {
  }
}
