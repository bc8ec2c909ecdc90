/**
 * The message bundle the generator consumes: Soy messages made of parts.
 * These stand for the library's SoyMsg and SoyMsgPart classes, reduced to
 * what the PO generator reads.
 */
module SoyMsgs {
  import opened Wrappers

  /** A Java `long`, the type of a message id. */
  newtype int64 = x: int | -0x8000_0000_0000_0000 <= x < 0x8000_0000_0000_0000

  /** The selector of one plural case: an explicit number, or the default case. */
  datatype CaseSpec = Explicit(value: int) | Other

  /** One piece of a message. */
  datatype MsgPart =
    | RawText(text: string)
    | Placeholder(name: string)
    | Plural(cases: seq<PluralCase>)
    | Select

  /** A plural case: its selector paired with the parts shown for it. */
  datatype PluralCase = PluralCase(spec: CaseSpec, parts: seq<MsgPart>)

  /** A message of the bundle; `desc` and `meaning` may be null in the source. */
  datatype SoyMsg = SoyMsg(
    id: int64,
    contentType: string,
    desc: Option<string>,
    meaning: Option<string>,
    parts: seq<MsgPart>)

  /** Parts that render to text: raw text and placeholders. */
  predicate IsTextPart(p: MsgPart)
  {
    p.RawText? || p.Placeholder?
  }
}
