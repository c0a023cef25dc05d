/** The dispatcher shared by both renderers (`Base` in the bindings): the
    event stream, handler-name resolution, and the feature flags a renderer
    asks the engine for. */
module Dispatch {
  import opened Wrappers
  import opened Enums
  import opened Details
  import opened Flags
  import opened Wraps

  /** A tag of either family. The engine's block and span callbacks are both
      bound to the same `_enter` and `_leave`, so a tag keeps its family only
      through its name. */
  datatype Tag = BlockTag(block: Block) | SpanTag(span: Span)

  /** One callback from the engine, after the wrappers have converted it. */
  datatype Event =
    | Enter(tag: Tag, info: Option<Detail>)
    | Leave(tag: Tag, info: Option<Detail>)
    | Track(kind: Text, text: string)

  function TagName(t: Tag): string {
    match t
    case BlockTag(b) => BlockName(b)
    case SpanTag(s) => SpanName(s)
  }

  /** `str.rstrip('_')`. */
  function StripUnderscores(name: string): (r: string)
    ensures r <= name
    ensures r == [] || r[|r| - 1] != '_'
    ensures forall i :: |r| <= i < |name| ==> name[i] == '_'
  {
    if name != [] && name[|name| - 1] == '_' then StripUnderscores(name[..|name| - 1]) else name
  }

  /** `_res`: the tag's name without trailing underscores. */
  function Res(t: Tag): (r: string)
    ensures r <= TagName(t) && (r == [] || r[|r| - 1] != '_')
    ensures forall i :: |r| <= i < |TagName(t)| ==> TagName(t)[i] == '_'
  {
    StripUnderscores(TagName(t))
  }

  /** The method `_enter` looks up for a tag. */
  function HandlerName(t: Tag): string {
    "_parse_" + Res(t)
  }

  /** Only strikethrough has a trailing underscore to strip. */
  lemma ResolvedNames(t: Tag)
    ensures Res(t) == if t == SpanTag(Span.Del) then "del" else TagName(t)
    ensures HandlerName(SpanTag(Span.Del)) == "_parse_del"
  {
    var name := TagName(t);
    if t == SpanTag(Span.Del) {
      assert name == "del_" && name[..3] == "del";
    } else {
      assert name != [] && name[|name| - 1] != '_' by {
        match t
        case BlockTag(b) =>
        case SpanTag(s) =>
      }
    }
  }

  /** Handler names agree exactly when the resolved tag names agree. */
  lemma HandlerNameOf(t1: Tag, t2: Tag)
    ensures HandlerName(t1) == HandlerName(t2) <==> Res(t1) == Res(t2)
  {
    assert HandlerName(t1)[7..] == Res(t1);
    assert HandlerName(t2)[7..] == Res(t2);
  }

  /** Within a family every tag has its own handler. */
  lemma {:induction false} HandlersDistinctInFamily(b1: Block, b2: Block, s1: Span, s2: Span)
    ensures HandlerName(BlockTag(b1)) == HandlerName(BlockTag(b2)) ==> b1 == b2
    ensures HandlerName(SpanTag(s1)) == HandlerName(SpanTag(s2)) ==> s1 == s2
  {
    HandlerNameOf(BlockTag(b1), BlockTag(b2));
    HandlerNameOf(SpanTag(s1), SpanTag(s2));
    ResolvedNames(BlockTag(b1));
    ResolvedNames(BlockTag(b2));
    ResolvedNames(SpanTag(s1));
    ResolvedNames(SpanTag(s2));
    NamesDistinct(b1, b2, s1, s2);
  }

  /** Across families only `code` collides: block `code` and span `code`
      reach the same `_parse_code`. */
  lemma {:induction false} HandlersAcrossFamilies(b: Block, s: Span)
    ensures HandlerName(BlockTag(b)) == HandlerName(SpanTag(s)) <==> b == Block.Code && s == Span.Code
  {
    HandlerNameOf(BlockTag(b), SpanTag(s));
    ResolvedNames(BlockTag(b));
    ResolvedNames(SpanTag(s));
  }

  // ---------------------------------------------------------- event streams

  /** How an event changes the number of unmatched enters. */
  function Delta(e: Event): int {
    match e
    case Enter(_, _) => 1
    case Leave(_, _) => -1
    case Track(_, _) => 0
  }

  /** Enters minus leaves: the number of enters in `events` not yet left. */
  function Nesting(events: seq<Event>): int {
    if events == [] then 0 else Delta(events[0]) + Nesting(events[1..])
  }

  /** Every prefix of `events` has at least `floor` unmatched enters. */
  predicate NeverUnder(events: seq<Event>, floor: int) {
    forall k :: 0 <= k <= |events| ==> Nesting(events[..k]) >= floor
  }

  /** Every leave closes an earlier enter, and every enter is left. */
  predicate Balanced(events: seq<Event>) {
    Nesting(events) == 0 && NeverUnder(events, 0)
  }

  /** Dropping the first event shifts every prefix count by that event's delta. */
  lemma {:induction false} NeverUnderTail(events: seq<Event>, floor: int)
    requires events != [] && NeverUnder(events, floor)
    ensures Delta(events[0]) >= floor
    ensures NeverUnder(events[1..], floor - Delta(events[0]))
  {
    assert events[..1][1..] == [];
    assert Nesting(events[..1]) == Delta(events[0]);
    forall k | 0 <= k <= |events| - 1
      ensures Nesting(events[1..][..k]) >= floor - Delta(events[0])
    {
      assert events[..k + 1][1..] == events[1..][..k];
      assert Nesting(events[..k + 1]) == Delta(events[0]) + Nesting(events[1..][..k]);
    }
  }

  // ----------------------------------------------------------------- flags

  /** The classes on a renderer's method resolution order. */
  datatype PyClass = BaseClass | HtmlClass | AnsiClass | AbcClass | ObjectClass

  predicate IsBaseSubclass(c: PyClass) {
    c in {BaseClass, HtmlClass, AnsiClass}
  }

  /** The `flags` class attribute each renderer class declares. */
  function ClassFlags(c: PyClass): (m: Mask)
    requires IsBaseSubclass(c)
    ensures c == BaseClass ==> m == Bit(StrikeThrough) | Bit(Underline)
    ensures c == HtmlClass ==> m == Bit(Tables)
    ensures c == AnsiClass ==> m == NoHtml()
  {
    match c
    case BaseClass => 0x4200
    case HtmlClass => 0x0100
    case AnsiClass => 0x0060
  }

  /** What one class on the order adds: its `flags` if it is a `Base`
      subclass, nothing otherwise (the loop's `continue`). */
  function Contribution(c: PyClass): Mask {
    if IsBaseSubclass(c) then ClassFlags(c) else 0
  }

  /** `cls.__mro__` of the two concrete renderers. */
  function Mro(c: PyClass): seq<PyClass> {
    match c
    case HtmlClass => [HtmlClass, BaseClass, AbcClass, ObjectClass]
    case AnsiClass => [AnsiClass, BaseClass, AbcClass, ObjectClass]
    case BaseClass => [BaseClass, AbcClass, ObjectClass]
    case AbcClass => [AbcClass, ObjectClass]
    case ObjectClass => [ObjectClass]
  }

  /** The union of the `flags` of the `Base` subclasses in `mro`. */
  function MroFlags(mro: seq<PyClass>): Mask {
    if mro == [] then 0
    else
      MroFlags(mro[..|mro| - 1]) | Contribution(mro[|mro| - 1])
  }

  /** The loop of `Base.__init__`: OR the caller's flags with the `flags` of
      every `Base` subclass on the method resolution order. */
  method ResolveFlags(caller: Mask, mro: seq<PyClass>) returns (flags: Mask)
    ensures flags == caller | MroFlags(mro)
  {
    flags := caller;
    var i := 0;
    while i < |mro|
      invariant 0 <= i <= |mro|
      invariant flags == caller | MroFlags(mro[..i])
    {
      assert mro[..i + 1][..i] == mro[..i];
      flags := flags | Contribution(mro[i]);
      i := i + 1;
    }
    assert mro[..|mro|] == mro;
  }

  /** Every `Base` subclass on the order contributes all of its flags. */
  lemma {:induction false} MroFlagsInclude(mro: seq<PyClass>, i: nat)
    requires i < |mro| && IsBaseSubclass(mro[i])
    ensures Includes(MroFlags(mro), ClassFlags(mro[i]))
  {
    if i < |mro| - 1 {
      MroFlagsInclude(mro[..|mro| - 1], i);
    }
  }

  /** No other bit is set: if every `Base` subclass on the order declares
      flags within `mask`, so does the union. */
  lemma {:induction false} MroFlagsWithin(mro: seq<PyClass>, mask: Mask)
    requires forall c :: c in mro && IsBaseSubclass(c) ==> ClassFlags(c) & !mask == 0
    ensures MroFlags(mro) & !mask == 0
  {
    if mro != [] {
      MroFlagsWithin(mro[..|mro| - 1], mask);
    }
  }

  /** The flags a renderer of class `c` passes to the engine. */
  function EffectiveFlags(c: PyClass, caller: Mask): Mask {
    caller | MroFlags(Mro(c))
  }

  /** The flags the two renderers' classes add, as numbers. */
  lemma RendererMroFlags()
    ensures MroFlags(Mro(HtmlClass)) == 0x4300
    ensures MroFlags(Mro(AnsiClass)) == 0x4260
  {
    var h := Mro(HtmlClass);
    assert h[..1][..0] == [];
    assert MroFlags(h[..1]) == 0x0100;
    assert h[..2][..1] == h[..1];
    assert MroFlags(h[..2]) == 0x4300;
    assert h[..3][..2] == h[..2];
    assert MroFlags(h[..3]) == 0x4300;
    var a := Mro(AnsiClass);
    assert a[..1][..0] == [];
    assert MroFlags(a[..1]) == 0x0060;
    assert a[..2][..1] == a[..1];
    assert MroFlags(a[..2]) == 0x4260;
    assert a[..3][..2] == a[..2];
    assert MroFlags(a[..3]) == 0x4260;
  }

  /** `Html` always asks for tables, strikethrough and underline, adds
      nothing else, and keeps the caller's own flags. */
  lemma HtmlFlags(caller: Mask)
    ensures EffectiveFlags(HtmlClass, caller) == caller | Bit(Tables) | Bit(StrikeThrough) | Bit(Underline)
  {
    RendererMroFlags();
  }

  /** `Ansi` always asks for no-HTML, strikethrough and underline, and adds
      nothing else. */
  lemma AnsiFlags(caller: Mask)
    ensures EffectiveFlags(AnsiClass, caller) == caller | NoHtml() | Bit(StrikeThrough) | Bit(Underline)
  {
    RendererMroFlags();
  }
}
