/** The callback wrappers between the engine and a renderer: which detail
    structure (if any) a tag's handler receives, and which bytes a text
    callback forwards. */
module Wraps {
  import opened Wrappers
  import opened Enums
  import opened Details

  /** `_block_details`: the block tags that carry a detail. */
  function BlockDetailKind(b: Block): (k: Option<Kind>)
    ensures k.Some? <==> b in {Block.Ul, Block.Ol, Block.Li, Block.H, Block.Code, Block.Td}
  {
    match b
    case Ul => Some(UlKind)
    case Ol => Some(OlKind)
    case Li => Some(LiKind)
    case H => Some(HKind)
    case Code => Some(CodeKind)
    case Td => Some(TdKind)
    case _ => None
  }

  /** `_span_details`: the span tags that carry a detail. */
  function SpanDetailKind(s: Span): (k: Option<Kind>)
    ensures k.Some? <==> s in {Span.A, Span.Img, Span.WikiLink}
  {
    match s
    case A => Some(AKind)
    case Img => Some(ImgKind)
    case WikiLink => Some(WikiLinkKind)
    case _ => None
  }

  /** What a handler may receive for a tag whose table entry is `kind`:
      nothing, or a structure of that kind. */
  predicate Fits(kind: Option<Kind>, info: Option<Detail>) {
    info.Some? ==> kind.Some? && KindOf(info.value) == kind.value
  }

  /** The engine's side of the protocol: a non-null detail pointer of a tag
      the table maps points at a structure of the mapped kind. */
  predicate EngineSends(kind: Option<Kind>, pointer: Option<Detail>) {
    kind.Some? && pointer.Some? ==> KindOf(pointer.value) == kind.value
  }

  /** `_clause(Block, _block_details, func)`: the raw ordinal becomes a
      `Block` (ValueError if it is none), and the detail is read only when
      the table maps the tag and the pointer is not null. */
  function BlockClause(ordinal: int, pointer: Option<Detail>): (r: Result<(Block, Option<Detail>)>)
    requires BlockOf(ordinal).Some? ==> EngineSends(BlockDetailKind(BlockOf(ordinal).value), pointer)
    ensures r.Err? <==> !(0 <= ordinal < 16)
    ensures r.Err? ==> r.exception == ValueError
    ensures r.Ok? ==> BlockOrdinal(r.value.0) == ordinal
    ensures r.Ok? ==> (r.value.1.Some? <==> BlockDetailKind(r.value.0).Some? && pointer.Some?)
    ensures r.Ok? ==> Fits(BlockDetailKind(r.value.0), r.value.1)
    ensures r.Ok? && r.value.1.Some? ==> r.value.1 == pointer
  {
    match BlockOf(ordinal)
    case None => Err(ValueError)
    case Some(b) =>
      var detail := if BlockDetailKind(b).Some? && pointer.Some? then pointer else None;
      Ok((b, detail))
  }

  /** `_clause(Span, _span_details, func)`. */
  function SpanClause(ordinal: int, pointer: Option<Detail>): (r: Result<(Span, Option<Detail>)>)
    requires SpanOf(ordinal).Some? ==> EngineSends(SpanDetailKind(SpanOf(ordinal).value), pointer)
    ensures r.Err? <==> !(0 <= ordinal < 10)
    ensures r.Err? ==> r.exception == ValueError
    ensures r.Ok? ==> SpanOrdinal(r.value.0) == ordinal
    ensures r.Ok? ==> (r.value.1.Some? <==> SpanDetailKind(r.value.0).Some? && pointer.Some?)
    ensures r.Ok? ==> Fits(SpanDetailKind(r.value.0), r.value.1)
    ensures r.Ok? && r.value.1.Some? ==> r.value.1 == pointer
  {
    match SpanOf(ordinal)
    case None => Err(ValueError)
    case Some(s) =>
      var detail := if SpanDetailKind(s).Some? && pointer.Some? then pointer else None;
      Ok((s, detail))
  }

  /** Table headers and inline code are delivered without a detail whatever
      the engine points at. */
  lemma UnmappedTagsGetNone(pointer: Option<Detail>)
    ensures BlockClause(BlockOrdinal(Block.Th), pointer) == Ok((Block.Th, None))
    ensures SpanClause(SpanOrdinal(Span.Code), pointer) == Ok((Span.Code, None))
  {
  }

  // ------------------------------------------------------------------ text

  newtype Byte = x: int | 0 <= x < 256

  /** What ctypes makes of a `c_char_p` argument: the bytes before the first NUL. */
  function UpToNul(raw: seq<Byte>): (r: seq<Byte>)
    ensures r <= raw
    ensures 0 !in r
    ensures |r| < |raw| ==> raw[|r|] == 0
  {
    if raw == [] || raw[0] == 0 then [] else [raw[0]] + UpToNul(raw[1..])
  }

  /** `bytes` is `raw` read up to the first NUL and then cut to `size`: a
      prefix with no NUL, at most `size` long, that stops at `size`, at the
      end of the data, or at a NUL. */
  predicate CutAt(raw: seq<Byte>, size: nat, bytes: seq<Byte>) {
    bytes <= raw && |bytes| <= size && 0 !in bytes &&
    (|bytes| == size || |bytes| == |raw| || raw[|bytes|] == 0)
  }

  /** At most one byte string is `raw` cut that way. */
  lemma CutAtUnique(raw: seq<Byte>, size: nat, b: seq<Byte>, c: seq<Byte>)
    requires CutAt(raw, size, b) && CutAt(raw, size, c)
    ensures b == c
  {
    NoNulBefore(raw, b);
    NoNulBefore(raw, c);
    assert |b| == |c|;
  }

  /** A NUL-free prefix of `raw` holds no NUL of `raw` before its end. */
  lemma NoNulBefore(raw: seq<Byte>, b: seq<Byte>)
    requires b <= raw && 0 !in b
    ensures forall i :: 0 <= i < |b| ==> raw[i] != 0
  {
    forall i | 0 <= i < |b|
      ensures raw[i] != 0
    {
      assert b[i] == raw[i];
      assert b[i] in b;
    }
  }

  /** `text`: the kind ordinal becomes a `Text` (ValueError if it is none) and
      `data[:size]` is forwarded, where `data` is what the `c_char_p` read
      gives. Together the clauses pin the bytes down: the longest prefix of
      the data that holds no NUL and is at most `size` long (`CutAtUnique`). */
  function TextClause(ordinal: int, raw: seq<Byte>, size: nat): (r: Result<(Text, seq<Byte>)>)
    ensures r.Err? <==> !(0 <= ordinal < 8)
    ensures r.Err? ==> r == Err(ValueError)
    ensures r.Ok? ==> TextOrdinal(r.value.0) == ordinal
    ensures r.Ok? ==> CutAt(raw, size, r.value.1)
    ensures r.Ok? && size <= |raw| && 0 !in raw[..size] ==> r.value.1 == raw[..size]
  {
    match TextOf(ordinal)
    case None => Err(ValueError)
    case Some(t) =>
      var data := UpToNul(raw);
      Ok((t, if size <= |data| then data[..size] else data))
  }
}
