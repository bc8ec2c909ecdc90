/**
 * PoGenerator: serializes a bundle of Soy messages into gettext PO text.
 *
 * The specification functions (RenderPart, RenderAll, CaseLine, PluralLines,
 * Body, Entry, Po) state what one call produces, as a list of the lines
 * written to the line builder; the methods CaseMessage, PluralMessage,
 * WriteBody, WriteEntry and GeneratePo are the source's loops, proved to
 * produce exactly that. A thrown PoException is an `Err`: it aborts the
 * whole bundle, so the partial builder content is never seen.
 */
module PoGenerator {
  import opened Wrappers
  import opened SoyMsgs
  import Decimal

  /** The source's PoException, identified by its message text. */
  datatype PoException = PoException(message: string)

  const EMBEDDED_PLURAL_ERROR := PoException("PO generation does not support embedded {plural}.")
  // The misspelling "generatioin" is the source's own.
  const SELECT_ERROR := PoException("PO generatioin does not support select blocks.")
  const UNSUPPORTED_CASE_ERROR :=
    PoException("PO only supports singular and plural variants, {case 1} and {default}, respectively.")
  const CONTENT_AROUND_PLURAL_PREFIX := "No message content is allowed before or after a plural block. Found: "

  const MSGID_OPEN := "msgid \""
  const MSGID_PLURAL_OPEN := "msgid_plural \""

  /** Declared by the source but never read: it does not affect the output. */
  const CONTENT_TYPE_TO_XLIFF_DATATYPE: map<string, string> := map[
    "text/plain" := "plaintext",
    "text/html" := "html",
    "application/xhtml+xml" := "xhtml",
    "application/javascript" := "javascript",
    "text/css" := "css",
    "text/xml" := "xml"]

  /** The text of the line builder: every line ends with a newline (indent is 0). */
  function ToText(lines: seq<string>): string
  {
    if lines == [] then "" else ToText(lines[..|lines| - 1]) + lines[|lines| - 1] + "\n"
  }

  /** A description or meaning is printed only when non-null and non-empty. */
  predicate HasText(s: Option<string>)
  {
    s.Some? && |s.value| > 0
  }

  /** The two plural selectors PO can express: `{case 1}` and `{default}`. */
  predicate IsSupportedSpec(spec: CaseSpec)
  {
    spec == Explicit(1) || spec == Other
  }

  // ---------------------------------------------------------------------------
  // Rendering of parts (`message`)
  // ---------------------------------------------------------------------------

  /**
   * The source's `message`: raw text is copied as is, with no PO escaping; a
   * placeholder becomes `{$name}`; a plural or select part cannot be rendered.
   */
  function RenderPart(part: MsgPart): (r: Result<string, PoException>)
    ensures r.Ok? <==> IsTextPart(part)
    ensures part.RawText? ==> r == Ok(part.text)
    ensures part.Placeholder? ==> r == Ok("{$" + part.name + "}")
    ensures part.Plural? ==> r == Err(EMBEDDED_PLURAL_ERROR)
    ensures part.Select? ==> r == Err(SELECT_ERROR)
  {
    match part
    case RawText(text) => Ok(text)
    case Plural(_) => Err(EMBEDDED_PLURAL_ERROR)
    case Select => Err(SELECT_ERROR)
    case Placeholder(name) => Ok("{$" + name + "}")
  }

  /** The parts rendered one after another and appended; the first failure aborts. */
  function RenderAll(parts: seq<MsgPart>): Result<string, PoException>
  {
    ConcatMap(RenderPart, parts)
  }

  // ---------------------------------------------------------------------------
  // Plural blocks (`pluralMessage`)
  // ---------------------------------------------------------------------------

  /**
   * The line one plural case yields: `{case 1}` a `msgid`, `{default}` a
   * `msgid_plural`, each quoting the case's rendered parts; every other
   * selector fails before its parts are looked at.
   */
  function CaseLine(c: PluralCase): Result<string, PoException>
  {
    var open :=
      if c.spec.Explicit? && c.spec.value == 1 then Some(MSGID_OPEN)
      else if c.spec.Other? then Some(MSGID_PLURAL_OPEN)
      else None;
    match open
    case None => Err(UNSUPPORTED_CASE_ERROR)
    case Some(o) =>
      match RenderAll(c.parts)
      case Err(e) => Err(e)
      case Ok(text) => Ok(o + text + "\"")
  }

  /** The one-line output of a plural case, as a list of lines. */
  function CaseLines(c: PluralCase): Result<seq<string>, PoException>
  {
    match CaseLine(c)
    case Err(e) => Err(e)
    case Ok(line) => Ok([line])
  }

  /** The lines of a plural block: one per case, in the order of the cases. */
  function PluralLines(cases: seq<PluralCase>): Result<seq<string>, PoException>
  {
    ConcatMap(CaseLines, cases)
  }

  // ---------------------------------------------------------------------------
  // Entries and bundles (`generatePo`)
  // ---------------------------------------------------------------------------

  /** Index of the first top-level plural part, or |parts| if there is none. */
  function FirstPlural(parts: seq<MsgPart>): (k: nat)
    ensures k <= |parts|
    ensures forall i :: 0 <= i < k ==> !parts[i].Plural?
    ensures k < |parts| ==> parts[k].Plural?
  {
    if parts == [] || parts[0].Plural? then 0 else 1 + FirstPlural(parts[1..])
  }

  /** Comment lines opening an entry: description, meaning, id and content type. */
  function Header(m: SoyMsg): seq<string>
  {
    (if HasText(m.desc) then ["# Description: " + m.desc.value] else [])
    + (if HasText(m.meaning) then ["# Meaning: " + m.meaning.value] else [])
    + ["#: id=" + Decimal.LongToString(m.id), "#: type=" + m.contentType]
  }

  /**
   * The lines an entry has after its comment lines. The parts before the
   * first top-level plural are rendered first; the scan stops at that plural,
   * whose block is written next, and only then is the text before it checked
   * to be empty. Parts after the first plural are never looked at. The entry
   * ends with a blank line.
   */
  function Body(parts: seq<MsgPart>): Result<seq<string>, PoException>
  {
    var k := FirstPlural(parts);
    match RenderAll(parts[..k])
    case Err(e) => Err(e)
    case Ok(text) =>
      if k == |parts| then Ok([MSGID_OPEN + text + "\"", ""])
      else
        match PluralLines(parts[k].cases)
        case Err(e) => Err(e)
        case Ok(lines) =>
          // `equalsIgnoreCase("msgid \"")` on a buffer that starts with that
          // very literal holds exactly when nothing was appended to it.
          if text != "" then Err(PoException(CONTENT_AROUND_PLURAL_PREFIX + (MSGID_OPEN + text)[6..]))
          else Ok(lines + [""])
  }

  /** The lines of one message's entry: its comment lines, then its body. */
  function Entry(m: SoyMsg): Result<seq<string>, PoException>
  {
    Concat(Ok(Header(m)), Body(m.parts))
  }

  /** The lines of a whole bundle: the entries in bundle order; any error aborts. */
  function Po(bundle: seq<SoyMsg>): Result<seq<string>, PoException>
  {
    ConcatMap(Entry, bundle)
  }

  // ---------------------------------------------------------------------------
  // The source's loops
  // ---------------------------------------------------------------------------

  /**
   * One pass of `pluralMessage`'s loop: picks the opening literal from the
   * selector, then appends the rendered parts of the case and a closing quote.
   */
  method CaseMessage(c: PluralCase) returns (r: Result<string, PoException>)
    ensures r == CaseLine(c)
  {
    var currentMessage: string;
    if c.spec.Explicit? && c.spec.value == 1 {
      currentMessage := MSGID_OPEN;
    } else if c.spec.Other? {
      currentMessage := MSGID_PLURAL_OPEN;
    } else {
      return Err(UNSUPPORTED_CASE_ERROR);
    }
    ghost var open := currentMessage;
    for j := 0 to |c.parts|
      invariant RenderAll(c.parts[..j]).Ok?
      invariant currentMessage == open + RenderAll(c.parts[..j]).value
    {
      assert c.parts[..j + 1][..j] == c.parts[..j];
      var s := RenderPart(c.parts[j]);
      if s.Err? {
        ConcatMapPrefixError(RenderPart, c.parts, j + 1);
        return Err(s.error);
      }
      currentMessage := currentMessage + s.value;
    }
    assert c.parts[..|c.parts|] == c.parts;
    r := Ok(currentMessage + "\"");
  }

  /**
   * `pluralMessage`: writes one line per case, in the order of the cases.
   * Returns the lines it writes to the builder, or the exception that stops it.
   */
  method PluralMessage(cases: seq<PluralCase>) returns (r: Result<seq<string>, PoException>)
    ensures r == PluralLines(cases)
  {
    var emitted: seq<string> := [];
    for i := 0 to |cases|
      invariant PluralLines(cases[..i]) == Ok(emitted)
    {
      assert cases[..i + 1][..i] == cases[..i];
      var line := CaseMessage(cases[i]);
      if line.Err? {
        ConcatMapPrefixError(CaseLines, cases, i + 1);
        return Err(line.error);
      }
      emitted := emitted + [line.value];
    }
    assert cases[..|cases|] == cases;
    r := Ok(emitted);
  }

  /**
   * The scan of `generatePo` over one message's parts: accumulates the text
   * of the parts into `singular` until the first plural, whose block is
   * written instead, and closes the entry with a blank line.
   */
  method WriteBody(parts: seq<MsgPart>) returns (r: Result<seq<string>, PoException>)
    ensures r == Body(parts)
  {
    var singular := MSGID_OPEN;
    var useSingular := true;
    var block: seq<string> := [];
    ghost var k := FirstPlural(parts);
    ghost var text := "";
    var j := 0;
    while j < |parts|
      invariant 0 <= j <= k
      invariant RenderAll(parts[..j]) == Ok(text)
      invariant singular == MSGID_OPEN + text
      invariant useSingular
    {
      var part := parts[j];
      if part.Plural? {
        assert j == k;
        var lines := PluralMessage(part.cases);
        if lines.Err? {
          return Err(lines.error);
        }
        block := lines.value;
        useSingular := false;
        break;
      }
      assert parts[..j + 1][..j] == parts[..j];
      var s := RenderPart(part);
      if s.Err? {
        ConcatMapPrefixError(RenderPart, parts[..k], j + 1);
        assert parts[..k][..j + 1] == parts[..j + 1];
        return Err(s.error);
      }
      singular := singular + s.value;
      text := text + s.value;
      j := j + 1;
    }

    if useSingular {
      assert parts[..k] == parts[..j];
      r := Ok([singular + "\"", ""]);
    } else if singular != MSGID_OPEN {
      assert text != "";
      r := Err(PoException(CONTENT_AROUND_PLURAL_PREFIX + singular[6..]));
    } else {
      r := Ok(block + [""]);
    }
  }

  /**
   * One pass of `generatePo`'s loop: appends the entry of `msg` to the lines
   * `ilb` already holds: the comment lines, then the body.
   */
  method WriteEntry(msg: SoyMsg, ilb: seq<string>) returns (r: Result<seq<string>, PoException>)
    ensures r == Concat(Ok(ilb), Entry(msg))
  {
    var out := ilb;
    if msg.desc.Some? && |msg.desc.value| > 0 {
      out := out + ["# Description: " + msg.desc.value];
    }
    if msg.meaning.Some? && |msg.meaning.value| > 0 {
      out := out + ["# Meaning: " + msg.meaning.value];
    }
    out := out + ["#: id=" + Decimal.LongToString(msg.id)];
    out := out + ["#: type=" + msg.contentType];
    assert out == ilb + Header(msg);
    var body := WriteBody(msg.parts);
    if body.Err? {
      return Err(body.error);
    }
    assert out + body.value == ilb + Entry(msg).value;
    r := Ok(out + body.value);
  }

  /**
   * `generatePo`: writes one entry per message of the bundle and returns the
   * builder's text. The locale arguments are accepted and not used.
   */
  method GeneratePo(bundle: seq<SoyMsg>, sourceLocale: string, targetLocale: Option<string>)
    returns (r: Result<string, PoException>)
    ensures Po(bundle).Ok? ==> r == Ok(ToText(Po(bundle).value))
    ensures Po(bundle).Err? ==> r == Err(Po(bundle).error)
  {
    var ilb: seq<string> := [];
    for i := 0 to |bundle|
      invariant Po(bundle[..i]) == Ok(ilb)
    {
      assert bundle[..i + 1][..i] == bundle[..i];
      var next := WriteEntry(bundle[i], ilb);
      if next.Err? {
        ConcatMapPrefixError(Entry, bundle, i + 1);
        return Err(next.error);
      }
      ilb := next.value;
    }
    assert bundle[..|bundle|] == bundle;
    r := Ok(ToText(ilb));
  }
}
