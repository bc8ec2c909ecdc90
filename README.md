# PoGenerator, modelled in Dafny

This project models `PoGenerator` from the Soy (Closure Templates) PO message
plugin. It turns a bundle of Soy messages into gettext PO text. For each
message it writes an entry with these lines, in order:

- an optional `# Description:` line and an optional `# Meaning:` line;
- the `#: id=` line and the `#: type=` line;
- either one `msgid "…"` line, or the `msgid`/`msgid_plural` lines of the
  message's plural block;
- a blank line.

Raw text is copied with no escaping, and a placeholder is written as `{$name}`.
These inputs throw a `PoException`, which aborts the whole bundle:

- a select block;
- a plural nested inside a plural case;
- a plural case other than `{case 1}` or `{default}`;
- text in front of a top-level plural.

Modules:

- `Wrappers`: `Option` and `Result`.
  - `Concat` joins the outputs of two steps, and the first failure wins.
  - `ConcatMap` runs an operation on each element in order, appends its
    output, and stops at the first failure. Its facts are proved once, for
    any operation. It is the shape of four of the source's five loops: the
    loop over the bundle (`PoGenerator.java:62`), the loop over plural cases
    (`:121`), and the two loops over a case's sub-parts (`:127`, `:133`).
    The fifth, the scan over a message's parts (`:83`), breaks at the first
    plural. It is modelled by `WriteBody`, and only the parts before that
    plural are a `ConcatMap`, through `RenderAll`.
- `SoyMsgs`: the messages the generator reads. A message has a 64-bit id, a
  content type, an optional description and meaning, and a list of parts:
  raw text, placeholder, plural with its cases, or select.
- `Decimal`: `Long.toString` for the id line. A reference parser proves that
  the printed id reads back as the same number.
- `PoGenerator`: the pure operation and the specification functions.
  - `message` is the function `RenderPart`. `RenderAll`, `CaseLine`,
    `PluralLines`, `Body`, `Entry` and `Po` give, as a list of builder lines,
    what each step writes.
  - Five methods follow the source's loops: `CaseMessage` and `PluralMessage`
    for `pluralMessage`; `WriteBody`, `WriteEntry` and `GeneratePo` for
    `generatePo`. Each is proved equal to its specification function.
  - A thrown `PoException` is an `Err` value, and its message text is the
    source's, misspelling included.
- `PoProperties`: lemmas over the specification functions. They state what
  the generator promises: the comment lines, the msgid line of a simple
  message, plural case mapping and order, the error cases and which one
  wins, and bundle composition.

Behaviour kept as the code has it:

- The scan of a message's parts stops at the first top-level plural, so
  later parts are never looked at. A select, or text, after the plural is
  not an error. The error texts suggest otherwise: `PoGenerator.java:97`
  says "before or after a plural block", and `PoGenerator.java:113` says
  select blocks are not supported. This model follows the code.
- The plural block is written before the check for text in front of it.
  So an error inside the plural block wins over that check.
- The check compares the accumulated text with `msgid "`, not the number of
  parts. Empty raw-text parts in front of a plural are accepted, and any
  other part there makes the message fail.
- The error message is built with `substring(6)`, so it quotes the text with
  its opening double quote.

## Model

| member | source | states |
|---|---|---|
| PoGenerator.RenderPart | java/src/com/google/template/soy/pomsgplugin/PoGenerator.java:107-118 | a part renders iff it is raw text or a placeholder; raw text is returned unchanged, a placeholder as `{$name}`; a plural fails with the embedded-plural error and a select with the select-block error |
| PoGenerator.FirstPlural | java/src/com/google/template/soy/pomsgplugin/PoGenerator.java:83-87 | the position where the part scan stops: no part before it is a plural, and the part at it is a plural unless it is the end |
| PoGenerator.CaseMessage | java/src/com/google/template/soy/pomsgplugin/PoGenerator.java:123-139 | one case of the plural loop yields exactly `CaseLine`: the selector picks `msgid "` or `msgid_plural "` or fails first, then the parts are appended and the quote closed |
| PoGenerator.PluralMessage | java/src/com/google/template/soy/pomsgplugin/PoGenerator.java:120-143 | the lines written for a plural block are exactly `PluralLines(cases)`, and the first failing case aborts with its error |
| PoGenerator.WriteBody | java/src/com/google/template/soy/pomsgplugin/PoGenerator.java:78-99 | the lines after the comment lines are exactly `Body(parts)`: the singular line, or the plural block and then the check that no text preceded it, then a blank line |
| PoGenerator.WriteEntry | java/src/com/google/template/soy/pomsgplugin/PoGenerator.java:64-99 | appending one message adds exactly its `Entry` to the lines already written, or fails with that entry's error |
| PoGenerator.GeneratePo | java/src/com/google/template/soy/pomsgplugin/PoGenerator.java:58-104 | the returned text is the builder text of `Po(bundle)`, and if any message fails, the error of the bundle |
| Decimal.NatToDecimal | java/src/com/google/template/soy/pomsgplugin/PoGenerator.java:75 | the magnitude of an id is printed as a non-empty digit string with no leading zero |
| Decimal.LongToString | java/src/com/google/template/soy/pomsgplugin/PoGenerator.java:75 | `Long.toString` starts with a minus sign exactly for negative ids |
| Decimal.DecimalRoundTrip | java/src/com/google/template/soy/pomsgplugin/PoGenerator.java:75 | reading back the printed digits gives the original number |
| Decimal.LongRoundTrip | java/src/com/google/template/soy/pomsgplugin/PoGenerator.java:75 | the printed id is well-formed signed decimal text that parses back to the id, so distinct ids give distinct `#: id=` lines |
| Wrappers.ConcatMapPrefixError | java/src/com/google/template/soy/pomsgplugin/PoGenerator.java:62-101 | once a prefix of a loop has thrown, the remaining elements change nothing |
| Wrappers.ConcatMapOkIff | java/src/com/google/template/soy/pomsgplugin/PoGenerator.java:62-101 | a loop completes iff every element's step does |
| Wrappers.ConcatMapFirstError | java/src/com/google/template/soy/pomsgplugin/PoGenerator.java:62-101 | a loop fails with the error of its first failing element |
| Wrappers.ConcatMapAppend | java/src/com/google/template/soy/pomsgplugin/PoGenerator.java:62-101 | looping over `a + b` is looping over `a`, then over `b` |
| Wrappers.ConcatMapSingle | java/src/com/google/template/soy/pomsgplugin/PoGenerator.java:62-101 | a loop over one element yields what that element's step yields |
| PoProperties.RenderAllAppend | java/src/com/google/template/soy/pomsgplugin/PoGenerator.java:83-91 | the text of a run of parts is the texts of its pieces joined, and the first error wins |
| PoProperties.RenderAllOkIff | java/src/com/google/template/soy/pomsgplugin/PoGenerator.java:107-118 | a run of parts renders iff every part is raw text or a placeholder |
| PoProperties.RenderAllFirstError | java/src/com/google/template/soy/pomsgplugin/PoGenerator.java:107-118 | a run of parts fails with the error of its first part that is not text |
| PoProperties.RenderAllSelectError | java/src/com/google/template/soy/pomsgplugin/PoGenerator.java:112-113 | with no plural among them, parts can only fail with the select-block error |
| PoProperties.RenderAllEmptyRawText | java/src/com/google/template/soy/pomsgplugin/PoGenerator.java:107-118 | parts render to the empty text exactly when every one of them is an empty raw text |
| PoProperties.RenderRawText | java/src/com/google/template/soy/pomsgplugin/PoGenerator.java:108-109 | raw text is copied unchanged, quotes and backslashes included |
| PoProperties.RenderPlaceholder | java/src/com/google/template/soy/pomsgplugin/PoGenerator.java:115-116 | a placeholder renders as `{$name}` |
| PoProperties.CaseLineSpec | java/src/com/google/template/soy/pomsgplugin/PoGenerator.java:125-139 | a case yields a line iff its selector is `{case 1}` or `{default}` and its parts render. `{case 1}` gives `msgid "text"` and `{default}` gives `msgid_plural "text"`. Any other selector fails with the unsupported-case error, whatever its parts are |
| PoProperties.PluralLinesSpec | java/src/com/google/template/soy/pomsgplugin/PoGenerator.java:120-143 | a plural block succeeds iff every case does, and then has exactly one line per case, line i being case i's line |
| PoProperties.PluralLinesFirstError | java/src/com/google/template/soy/pomsgplugin/PoGenerator.java:120-143 | a plural block fails with the error of its first failing case |
| PoProperties.UnsupportedCaseFails | java/src/com/google/template/soy/pomsgplugin/PoGenerator.java:137-138 | when every earlier case succeeds, a case whose selector is neither `{case 1}` nor `{default}` (e.g. `{case 2}`) fails the block with the unsupported-case error |
| PoProperties.EmbeddedPluralFails | java/src/com/google/template/soy/pomsgplugin/PoGenerator.java:127-128 | in a supported case, a plural with only text parts before it fails the case with the embedded-plural error |
| PoProperties.PluralCaseOrderKept | java/src/com/google/template/soy/pomsgplugin/PoGenerator.java:121-141 | cases are written in input order: `{default}` before `{case 1}` gives the `msgid_plural` line first, with no reordering |
| PoProperties.EntryCommentLines | java/src/com/google/template/soy/pomsgplugin/PoGenerator.java:64-76 | a description line comes first iff the description is non-null and non-empty. A meaning line comes next iff the meaning is. Then the id line, then the raw content-type line. The entry ends with a blank line |
| PoProperties.SimpleMessageEntry | java/src/com/google/template/soy/pomsgplugin/PoGenerator.java:78-95 | a message with no top-level plural fails iff it contains a select, with the select error, and otherwise has the single line `msgid "` + rendered parts + `"` |
| PoProperties.HelloParts | java/src/com/google/template/soy/pomsgplugin/PoGenerator.java:107-117 | `Hello ` followed by placeholder `NAME` renders to `Hello {$NAME}` |
| PoProperties.HelloMessage | java/src/com/google/template/soy/pomsgplugin/PoGenerator.java:64-99 | a message `Hello {$NAME}` with no description or meaning gives the id line, the type line, `msgid "Hello {$NAME}"` and a blank line |
| PoProperties.SelectBeforePluralFails | java/src/com/google/template/soy/pomsgplugin/PoGenerator.java:88-90 | a select before the first top-level plural fails the message with the select error |
| PoProperties.TextBeforePlural | java/src/com/google/template/soy/pomsgplugin/PoGenerator.java:93-98 | once the plural block succeeds, non-empty text before it fails with the fixed prefix + `"` + the text. Empty text leaves the plural lines and a blank line as the body |
| PoProperties.PluralErrorBeforeTextCheck | java/src/com/google/template/soy/pomsgplugin/PoGenerator.java:84-98 | a failing plural block reports its own error even when text precedes it, because the block is written before the check |
| PoProperties.EmptyRawTextBeforePlural | java/src/com/google/template/soy/pomsgplugin/PoGenerator.java:96 | when the plural block succeeds, the message is accepted exactly when every part before the first top-level plural is an empty raw text. The entry is then its comment lines, the plural lines and a blank line |
| PoProperties.PartsAfterPluralIgnored | java/src/com/google/template/soy/pomsgplugin/PoGenerator.java:84-87 | replacing whatever follows the first top-level plural, with a select or anything else, does not change the entry |
| PoProperties.PoAppend | java/src/com/google/template/soy/pomsgplugin/PoGenerator.java:62-101 | no state crosses messages: the lines for B1 ++ B2 are those for B1 followed by those for B2 |
| PoProperties.PoSingle | java/src/com/google/template/soy/pomsgplugin/PoGenerator.java:62-101 | a one-message bundle yields exactly that message's entry |
| PoProperties.PoOkIff | java/src/com/google/template/soy/pomsgplugin/PoGenerator.java:62-101 | a bundle succeeds iff every message's entry does |
| PoProperties.PoFirstError | java/src/com/google/template/soy/pomsgplugin/PoGenerator.java:62-101 | a failing bundle reports the error of its first failing message |
| PoProperties.ToTextAppend | java/src/com/google/template/soy/pomsgplugin/PoGenerator.java:94-99 | the builder text of two runs of lines is their texts joined |
| PoProperties.PoTextSplit | java/src/com/google/template/soy/pomsgplugin/PoGenerator.java:58-104 | the generated text for B1 ++ B2 is the text for B1 followed by the text for B2 |

## Left out

- The internals of `IndentedLinesBuilder` (IndentedLinesBuilder is not part of this model). The indent level is never raised, so the builder is a list of lines, and its text is each line followed by a newline.
- The builder as a shared mutable object: each method returns the lines it writes, and the caller appends them. Partial output written before an exception is not modelled, because the builder is discarded when the exception propagates.
- Exception unwinding: a thrown `PoException` is an `Err` result carrying the message text.
- The classes `SoyMsgBundle`, `SoyMsg`, `SoyMsgPart`, `SoyMsgPluralCaseSpec` and `Pair` are replaced by datatypes and sequences. Fields the generator does not read are omitted. A null content type is not modelled.
- Plural selectors other than an explicit number and `{default}` are not modelled. The source rejects them all through the same branch as `{case 2}`.
- The locale parameters of `generatePo` are accepted and ignored, as in the source.
- `CONTENT_TYPE_TO_XLIFF_DATATYPE_MAP` is kept as a constant. The source never reads it, so it does not affect the output.
- `equalsIgnoreCase` is modelled as a test for empty accumulated text. The buffer always begins with `msgid "`, so no case folding can change the outcome.
- Decimal.ParseLong: a reference parser used only to state the id round trip. It is not `Long.parseLong` and does not reject out-of-range text.
