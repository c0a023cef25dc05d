/** md4c's parser feature flags (`Spec`) and the dialect presets (`Dialect`)
    as 32-bit masks. */
module Flags {

  type Mask = bv32

  /** The single-bit flags, in declaration order. */
  datatype Spec =
    | CollapseWhitespace | PermissiveAtxHeaders | PermissiveUrlAutolinks
    | PermissiveEmailAutolinks | NoIndentedCodeBlocks | NoHtmlBlocks
    | NoHtmlSpans | Tables | StrikeThrough | PermissiveWwwAutolinks
    | TaskLists | LatexMathSpans | WikiLinks | Underline

  function Bit(s: Spec): (m: Mask)
    ensures m != 0 && m & (m - 1) == 0
  {
    match s
    case CollapseWhitespace => 0x0001
    case PermissiveAtxHeaders => 0x0002
    case PermissiveUrlAutolinks => 0x0004
    case PermissiveEmailAutolinks => 0x0008
    case NoIndentedCodeBlocks => 0x0010
    case NoHtmlBlocks => 0x0020
    case NoHtmlSpans => 0x0040
    case Tables => 0x0100
    case StrikeThrough => 0x0200
    case PermissiveWwwAutolinks => 0x0400
    case TaskLists => 0x0800
    case LatexMathSpans => 0x1000
    case WikiLinks => 0x2000
    case Underline => 0x4000
  }

  /** `Spec.permissive_autolinks`. */
  function PermissiveAutolinks(): (m: Mask)
    ensures m == 0x040C
  {
    Bit(PermissiveEmailAutolinks) | Bit(PermissiveUrlAutolinks) | Bit(PermissiveWwwAutolinks)
  }

  /** `Spec.no_html`. */
  function NoHtml(): (m: Mask)
    ensures m == 0x0060
  {
    Bit(NoHtmlBlocks) | Bit(NoHtmlSpans)
  }

  /** `Dialect.commonmark`: no extension. */
  const Commonmark: Mask := 0

  /** `Dialect.github`. */
  function Github(): (m: Mask)
    ensures m == 0x0F0C
    ensures m & Bit(Tables) != 0 && m & Bit(TaskLists) != 0 && m & Bit(StrikeThrough) != 0
  {
    PermissiveAutolinks() | Bit(Tables) | Bit(StrikeThrough) | Bit(TaskLists)
  }

  /** `flag in mask`: every bit of `flag` is set in `mask`. */
  predicate Includes(mask: Mask, flag: Mask) {
    mask & flag == flag
  }

  /** The single-bit flags are distinct powers of two: different flags share no bit. */
  lemma BitsDisjoint(s: Spec, t: Spec)
    ensures s != t <==> Bit(s) & Bit(t) == 0
  {
  }
}
