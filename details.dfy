/** The per-tag detail structures the engine hands to enter callbacks, as
    plain values with the fields the bindings declare. */
module Details {
  import opened Wrappers

  /** An attribute string. `text` is what reading the `c_char_p` text
      pointer gives: the characters before the first NUL (see
      `Wraps.UpToNul`), or None when the pointer is null. The read ignores
      `size`, and no handler cuts `text` to `size`; the engine's own length
      for the attribute is `size` alone. The substring tables are kept as the
      raw integers the bindings read. */
  datatype Attribute = Attribute(text: Option<string>, size: nat, substrTypes: nat, substrOffsets: nat)

  datatype Detail =
    | Ul(isTight: int, mark: char)
    | Ol(start: nat, isTight: int, markDelimiter: char)
    | Li(isTask: int, taskMark: char, taskMarkOffset: nat)
    | H(level: nat)
    | Code(info: Attribute, lang: Attribute, fenceChar: char)
    | Td(align: nat)
    | A(href: Attribute, title: Attribute)
    | Img(src: Attribute, title: Attribute)
    | WikiLink(target: Attribute)

  /** The detail classes, used where the bindings name a class rather than a value. */
  datatype Kind = UlKind | OlKind | LiKind | HKind | CodeKind | TdKind | AKind | ImgKind | WikiLinkKind

  function KindOf(d: Detail): Kind {
    match d
    case Ul(_, _) => UlKind
    case Ol(_, _, _) => OlKind
    case Li(_, _, _) => LiKind
    case H(_) => HKind
    case Code(_, _, _) => CodeKind
    case Td(_) => TdKind
    case A(_, _) => AKind
    case Img(_, _) => ImgKind
    case WikiLink(_) => WikiLinkKind
  }

  /** `type(info).__name__.lower()`; the class of `None` is `NoneType`. */
  function ClassNameLower(info: Option<Detail>): string {
    match info
    case None => "nonetype"
    case Some(d) =>
      match KindOf(d)
      case UlKind => "ul" case OlKind => "ol" case LiKind => "li" case HKind => "h"
      case CodeKind => "code" case TdKind => "td" case AKind => "a" case ImgKind => "img"
      case WikiLinkKind => "wikilink"
  }

  /** The same detail with every attribute's `size` set to `n`. */
  function Resized(d: Detail, n: nat): Detail {
    match d
    case Code(info, lang, fence) => Code(info.(size := n), lang.(size := n), fence)
    case A(href, title) => A(href.(size := n), title.(size := n))
    case Img(src, title) => Img(src.(size := n), title.(size := n))
    case WikiLink(target) => WikiLink(target.(size := n))
    case _ => d
  }
}
