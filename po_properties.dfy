/**
 * What the PO generator promises, stated over the specification functions of
 * module PoGenerator (which GeneratePo is proved to follow).
 */
module PoProperties {
  import opened Wrappers
  import opened SoyMsgs
  import opened PoGenerator
  import Decimal

  predicate HasPrefix(line: string, prefix: string)
  {
    |prefix| <= |line| && line[..|prefix|] == prefix
  }

  // ---------------------------------------------------------------------------
  // Rendering parts
  // ---------------------------------------------------------------------------

  /** Rendering a sequence of parts distributes over concatenation of the parts. */
  lemma RenderAllAppend(a: seq<MsgPart>, b: seq<MsgPart>)
    ensures RenderAll(a + b) == Concat(RenderAll(a), RenderAll(b))
  {
    ConcatMapAppend(RenderPart, a, b);
  }

  /** Parts render exactly when every one of them is raw text or a placeholder. */
  lemma RenderAllOkIff(parts: seq<MsgPart>)
    ensures RenderAll(parts).Ok? <==> forall i :: 0 <= i < |parts| ==> IsTextPart(parts[i])
  {
    ConcatMapOkIff(RenderPart, parts);
    assert forall i :: 0 <= i < |parts| ==> (RenderPart(parts[i]).Ok? <==> IsTextPart(parts[i]));
  }

  /** Rendering fails with the error of the first part that is not text. */
  lemma RenderAllFirstError(parts: seq<MsgPart>, i: nat)
    requires i < |parts|
    requires forall j :: 0 <= j < i ==> IsTextPart(parts[j])
    requires !IsTextPart(parts[i])
    ensures RenderAll(parts) == RenderPart(parts[i])
  {
    assert forall j :: 0 <= j < i ==> RenderPart(parts[j]).Ok?;
    ConcatMapFirstError(RenderPart, parts, i);
  }

  /** With no plural among them, parts can only fail to render on a select. */
  lemma {:induction false} RenderAllSelectError(parts: seq<MsgPart>)
    requires forall i :: 0 <= i < |parts| ==> !parts[i].Plural?
    ensures RenderAll(parts).Err? ==> RenderAll(parts).error == SELECT_ERROR
  {
    if parts != [] {
      RenderAllSelectError(parts[..|parts| - 1]);
    }
  }

  /**
   * Parts render to the empty text exactly when every one of them is an empty
   * raw text: a placeholder always contributes `{$`, `}` and its name.
   */
  lemma {:induction false} RenderAllEmptyRawText(parts: seq<MsgPart>)
    ensures RenderAll(parts) == Ok("") <==> forall i :: 0 <= i < |parts| ==> parts[i] == RawText("")
  {
    if parts != [] {
      var prefix := parts[..|parts| - 1];
      var last := parts[|parts| - 1];
      RenderAllEmptyRawText(prefix);
      assert RenderAll(parts) == Concat(RenderAll(prefix), RenderPart(last));
      assert forall i :: 0 <= i < |prefix| ==> prefix[i] == parts[i];
      if RenderAll(parts) == Ok("") {
        assert |RenderAll(prefix).value| + |RenderPart(last).value| == 0;
      }
      if forall i :: 0 <= i < |parts| ==> parts[i] == RawText("") {
        assert last == RawText("");
        assert "" + "" == "";
      }
    }
  }

  // ---------------------------------------------------------------------------
  // Plural blocks
  // ---------------------------------------------------------------------------

  /**
   * The line of one plural case: `{case 1}` quotes the rendered parts after
   * `msgid`, `{default}` after `msgid_plural`; any other selector is refused
   * whatever the parts are, and a supported case fails as its parts do.
   */
  lemma CaseLineSpec(c: PluralCase)
    ensures CaseLine(c).Ok? <==> IsSupportedSpec(c.spec) && RenderAll(c.parts).Ok?
    ensures CaseLine(c).Ok? && c.spec == Explicit(1) ==>
      CaseLine(c).value == MSGID_OPEN + RenderAll(c.parts).value + "\""
    ensures CaseLine(c).Ok? && c.spec == Other ==>
      CaseLine(c).value == MSGID_PLURAL_OPEN + RenderAll(c.parts).value + "\""
    ensures !IsSupportedSpec(c.spec) ==> CaseLine(c) == Err(UNSUPPORTED_CASE_ERROR)
    ensures IsSupportedSpec(c.spec) && RenderAll(c.parts).Err? ==> CaseLine(c) == Err(RenderAll(c.parts).error)
  {
  }

  /**
   * A plural block succeeds exactly when each of its cases does, and then it
   * has one line per case, in the order of the cases.
   */
  lemma {:induction false} PluralLinesSpec(cases: seq<PluralCase>)
    ensures PluralLines(cases).Ok? <==> forall i :: 0 <= i < |cases| ==> CaseLine(cases[i]).Ok?
    ensures PluralLines(cases).Ok? ==> |PluralLines(cases).value| == |cases|
    ensures PluralLines(cases).Ok? ==>
      forall i :: 0 <= i < |cases| ==> PluralLines(cases).value[i] == CaseLine(cases[i]).value
  {
    if cases != [] {
      var prefix := cases[..|cases| - 1];
      PluralLinesSpec(prefix);
      assert forall i :: 0 <= i < |prefix| ==> prefix[i] == cases[i];
    }
  }

  /** A plural block fails with the error of its first failing case. */
  lemma PluralLinesFirstError(cases: seq<PluralCase>, i: nat)
    requires i < |cases|
    requires forall j :: 0 <= j < i ==> CaseLine(cases[j]).Ok?
    requires CaseLine(cases[i]).Err?
    ensures PluralLines(cases) == Err(CaseLine(cases[i]).error)
  {
    assert forall j :: 0 <= j < i ==> CaseLines(cases[j]).Ok?;
    ConcatMapFirstError(CaseLines, cases, i);
  }

  /** A selector other than `{case 1}` and `{default}`, e.g. `{case 2}`, is refused. */
  lemma UnsupportedCaseFails(cases: seq<PluralCase>, i: nat)
    requires i < |cases|
    requires forall j :: 0 <= j < i ==> CaseLine(cases[j]).Ok?
    requires !IsSupportedSpec(cases[i].spec)
    ensures PluralLines(cases) == Err(UNSUPPORTED_CASE_ERROR)
  {
    PluralLinesFirstError(cases, i);
  }

  /** A plural nested in the parts of a plural case is refused. */
  lemma EmbeddedPluralFails(c: PluralCase, j: nat)
    requires IsSupportedSpec(c.spec)
    requires j < |c.parts|
    requires forall i :: 0 <= i < j ==> IsTextPart(c.parts[i])
    requires c.parts[j].Plural?
    ensures CaseLine(c) == Err(EMBEDDED_PLURAL_ERROR)
  {
    RenderAllFirstError(c.parts, j);
    CaseLineSpec(c);
  }

  /** A single raw-text part renders to its text, quotes and backslashes included. */
  lemma RenderRawText(text: string)
    ensures RenderAll([RawText(text)]) == Ok(text)
  {
    ConcatMapSingle(RenderPart, RawText(text));
  }

  /** Cases are written in the order given, with no singular-first reordering. */
  lemma PluralCaseOrderKept()
    ensures PluralLines([PluralCase(Other, [RawText("items")]), PluralCase(Explicit(1), [RawText("item")])])
         == Ok(["msgid_plural \"items\"", "msgid \"item\""])
  {
    var cases := [PluralCase(Other, [RawText("items")]), PluralCase(Explicit(1), [RawText("item")])];
    RenderRawText("items");
    RenderRawText("item");
    assert MSGID_PLURAL_OPEN + "items" + "\"" == "msgid_plural \"items\"";
    assert MSGID_OPEN + "item" + "\"" == "msgid \"item\"";
    CaseLineSpec(cases[0]);
    CaseLineSpec(cases[1]);
    ConcatMapSingle(CaseLines, cases[0]);
    ConcatMapSingle(CaseLines, cases[1]);
    assert [cases[0]] + [cases[1]] == cases;
    ConcatMapAppend(CaseLines, [cases[0]], [cases[1]]);
    assert ["msgid_plural \"items\""] + ["msgid \"item\""] == ["msgid_plural \"items\"", "msgid \"item\""];
  }

  // ---------------------------------------------------------------------------
  // Entries
  // ---------------------------------------------------------------------------

  /**
   * Comment lines of an entry: a description line first exactly when the
   * description is non-empty, a meaning line next exactly when the meaning is
   * non-empty, then the id line immediately followed by the content-type line.
   * The entry ends with a blank line.
   */
  lemma EntryCommentLines(m: SoyMsg)
    requires Entry(m).Ok?
    ensures var lines := Entry(m).value;
      var n := (if HasText(m.desc) then 1 else 0) + (if HasText(m.meaning) then 1 else 0);
      && n + 3 <= |lines|
      && (HasText(m.desc) <==> n > 0 && HasPrefix(lines[0], "# Description: "))
      && (HasText(m.desc) ==> lines[0] == "# Description: " + m.desc.value)
      && (HasText(m.meaning) <==> n > 0 && HasPrefix(lines[n - 1], "# Meaning: "))
      && (HasText(m.meaning) ==> lines[n - 1] == "# Meaning: " + m.meaning.value)
      && lines[n] == "#: id=" + Decimal.LongToString(m.id)
      && lines[n + 1] == "#: type=" + m.contentType
      && lines[|lines| - 1] == ""
  {
    var lines := Entry(m).value;
    var body := Body(m.parts).value;
    assert lines == Header(m) + body;
    var k := FirstPlural(m.parts);
    assert |body| > 0 && body[|body| - 1] == "";
    var n := (if HasText(m.desc) then 1 else 0) + (if HasText(m.meaning) then 1 else 0);
    assert |Header(m)| == n + 2;
    if n > 0 {
      var first := lines[0];
      if HasText(m.desc) {
        assert first == "# Description: " + m.desc.value;
        assert first[2] == 'D';
      } else {
        assert first == "# Meaning: " + m.meaning.value;
        assert first[2] == 'M';
      }
      var last := lines[n - 1];
      if HasText(m.meaning) {
        assert last == "# Meaning: " + m.meaning.value;
        assert last[2] == 'M';
      } else {
        assert last == "# Description: " + m.desc.value;
        assert last[2] == 'D';
      }
    }
  }

  /**
   * A message without a top-level plural: it fails exactly when it holds a
   * select, and otherwise its one `msgid` line quotes its rendered parts.
   */
  lemma SimpleMessageEntry(m: SoyMsg)
    requires forall i :: 0 <= i < |m.parts| ==> !m.parts[i].Plural?
    ensures Entry(m).Ok? <==> forall i :: 0 <= i < |m.parts| ==> !m.parts[i].Select?
    ensures Entry(m).Err? ==> Entry(m) == Err(SELECT_ERROR)
    ensures RenderAll(m.parts).Ok? ==>
      Entry(m) == Ok(Header(m) + [MSGID_OPEN + RenderAll(m.parts).value + "\"", ""])
  {
    assert FirstPlural(m.parts) == |m.parts|;
    assert m.parts[..|m.parts|] == m.parts;
    RenderAllOkIff(m.parts);
    RenderAllSelectError(m.parts);
  }

  /** A single placeholder part renders as `{$name}`. */
  lemma RenderPlaceholder(name: string)
    ensures RenderAll([Placeholder(name)]) == Ok("{$" + name + "}")
  {
    ConcatMapSingle(RenderPart, Placeholder(name));
  }

  lemma HelloParts()
    ensures RenderAll([RawText("Hello "), Placeholder("NAME")]) == Ok("Hello {$NAME}")
  {
    var parts := [RawText("Hello "), Placeholder("NAME")];
    RenderRawText("Hello ");
    RenderPlaceholder("NAME");
    RenderAllAppend([parts[0]], [parts[1]]);
    assert [parts[0]] + [parts[1]] == parts;
    assert "Hello " + ("{$" + "NAME" + "}") == "Hello {$NAME}";
  }

  // Kept apart from HelloMessage: proving this literal equality there, among
  // the unfolded entry, runs the solver out of resources.
  lemma HelloLine()
    ensures MSGID_OPEN + "Hello {$NAME}" + "\"" == "msgid \"Hello {$NAME}\""
  {
  }

  /** `Hello {$NAME}`: the raw text and the placeholder share one `msgid` line. */
  lemma HelloMessage(id: int64, contentType: string)
    ensures var m := SoyMsg(id, contentType, None, None, [RawText("Hello "), Placeholder("NAME")]);
      Entry(m) == Ok(["#: id=" + Decimal.LongToString(id), "#: type=" + contentType,
                      "msgid \"Hello {$NAME}\"", ""])
  {
    var m := SoyMsg(id, contentType, None, None, [RawText("Hello "), Placeholder("NAME")]);
    HelloParts();
    SimpleMessageEntry(m);
    var line := MSGID_OPEN + "Hello {$NAME}" + "\"";
    HelloLine();
    assert Header(m) == ["#: id=" + Decimal.LongToString(id), "#: type=" + contentType];
    assert Header(m) + [line, ""] == ["#: id=" + Decimal.LongToString(id), "#: type=" + contentType, line, ""];
  }

  /** A select before the first top-level plural fails the message. */
  lemma SelectBeforePluralFails(m: SoyMsg, i: nat)
    requires i < FirstPlural(m.parts) && m.parts[i].Select?
    ensures Entry(m) == Err(SELECT_ERROR)
  {
    var k := FirstPlural(m.parts);
    var prefix := m.parts[..k];
    assert forall j :: 0 <= j < k ==> prefix[j] == m.parts[j];
    assert !IsTextPart(prefix[i]);
    RenderAllOkIff(prefix);
    RenderAllSelectError(prefix);
  }

  /**
   * Text before a top-level plural: once the plural block itself succeeds,
   * non-empty text fails the message with an error that quotes it after an
   * opening double quote; empty text lets the plural block stand as the body.
   */
  lemma TextBeforePlural(m: SoyMsg)
    requires FirstPlural(m.parts) < |m.parts|
    requires RenderAll(m.parts[..FirstPlural(m.parts)]).Ok?
    requires PluralLines(m.parts[FirstPlural(m.parts)].cases).Ok?
    ensures var text := RenderAll(m.parts[..FirstPlural(m.parts)]).value;
      text != "" ==> Entry(m) == Err(PoException(CONTENT_AROUND_PLURAL_PREFIX + "\"" + text))
    ensures var text := RenderAll(m.parts[..FirstPlural(m.parts)]).value;
      text == "" ==> Entry(m) == Ok(Header(m) + PluralLines(m.parts[FirstPlural(m.parts)].cases).value + [""])
  {
    var text := RenderAll(m.parts[..FirstPlural(m.parts)]).value;
    var lines := PluralLines(m.parts[FirstPlural(m.parts)].cases).value;
    assert (MSGID_OPEN + text)[6..] == "\"" + text;
    assert CONTENT_AROUND_PLURAL_PREFIX + ("\"" + text) == CONTENT_AROUND_PLURAL_PREFIX + "\"" + text;
    assert Header(m) + (lines + [""]) == Header(m) + lines + [""];
  }

  /**
   * The plural block is written before the text in front of it is checked,
   * so a failing plural block reports its own error even when text precedes it.
   */
  lemma PluralErrorBeforeTextCheck(m: SoyMsg)
    requires FirstPlural(m.parts) < |m.parts|
    requires RenderAll(m.parts[..FirstPlural(m.parts)]).Ok?
    requires PluralLines(m.parts[FirstPlural(m.parts)].cases).Err?
    ensures Entry(m) == Err(PluralLines(m.parts[FirstPlural(m.parts)].cases).error)
  {
  }

  /**
   * In front of a top-level plural whose block succeeds, the message is
   * accepted exactly when every part there is an empty raw text; its body is
   * then the plural lines and a blank line.
   */
  lemma EmptyRawTextBeforePlural(m: SoyMsg)
    requires FirstPlural(m.parts) < |m.parts|
    requires PluralLines(m.parts[FirstPlural(m.parts)].cases).Ok?
    ensures var k := FirstPlural(m.parts);
      Entry(m).Ok? <==> forall i :: 0 <= i < k ==> m.parts[i] == RawText("")
    ensures var k := FirstPlural(m.parts);
      Entry(m).Ok? ==> Entry(m) == Ok(Header(m) + PluralLines(m.parts[k].cases).value + [""])
  {
    var k := FirstPlural(m.parts);
    var prefix := m.parts[..k];
    assert forall i :: 0 <= i < k ==> prefix[i] == m.parts[i];
    RenderAllEmptyRawText(prefix);
    if RenderAll(prefix).Ok? {
      TextBeforePlural(m);
    }
  }

  /** Parts after the first top-level plural are never looked at, even a select. */
  lemma PartsAfterPluralIgnored(m: SoyMsg, rest: seq<MsgPart>)
    requires FirstPlural(m.parts) < |m.parts|
    ensures var k := FirstPlural(m.parts);
      Entry(m.(parts := m.parts[..k + 1] + rest)) == Entry(m)
  {
    var k := FirstPlural(m.parts);
    var parts' := m.parts[..k + 1] + rest;
    assert forall i :: 0 <= i <= k ==> parts'[i] == m.parts[i];
    assert FirstPlural(parts') == k;
    assert parts'[..k] == m.parts[..k];
  }

  // ---------------------------------------------------------------------------
  // Bundles
  // ---------------------------------------------------------------------------

  /** No state crosses messages: a bundle split in two yields the two outputs joined. */
  lemma PoAppend(b1: seq<SoyMsg>, b2: seq<SoyMsg>)
    ensures Po(b1 + b2) == Concat(Po(b1), Po(b2))
  {
    ConcatMapAppend(Entry, b1, b2);
  }

  /** A one-message bundle yields exactly that message's entry. */
  lemma PoSingle(m: SoyMsg)
    ensures Po([m]) == Entry(m)
  {
    ConcatMapSingle(Entry, m);
  }

  /** All or nothing: the bundle succeeds exactly when every message does. */
  lemma PoOkIff(bundle: seq<SoyMsg>)
    ensures Po(bundle).Ok? <==> forall i :: 0 <= i < |bundle| ==> Entry(bundle[i]).Ok?
  {
    ConcatMapOkIff(Entry, bundle);
  }

  /** A failing bundle reports the error of its first failing message. */
  lemma PoFirstError(bundle: seq<SoyMsg>, i: nat)
    requires i < |bundle|
    requires forall j :: 0 <= j < i ==> Entry(bundle[j]).Ok?
    requires Entry(bundle[i]).Err?
    ensures Po(bundle) == Err(Entry(bundle[i]).error)
  {
    ConcatMapFirstError(Entry, bundle, i);
  }

  /** The builder's text of two line lists is the two texts joined. */
  lemma {:induction false} ToTextAppend(a: seq<string>, b: seq<string>)
    ensures ToText(a + b) == ToText(a) + ToText(b)
    decreases |b|
  {
    if b == [] {
      assert a + b == a;
    } else {
      var b' := b[..|b| - 1];
      assert (a + b)[..|a + b| - 1] == a + b';
      assert (a + b)[|a + b| - 1] == b[|b| - 1];
      ToTextAppend(a, b');
    }
  }

  /** The generated text for B1 ++ B2 is the text for B1 followed by that for B2. */
  lemma PoTextSplit(b1: seq<SoyMsg>, b2: seq<SoyMsg>)
    requires Po(b1).Ok? && Po(b2).Ok?
    ensures Po(b1 + b2).Ok?
    ensures ToText(Po(b1 + b2).value) == ToText(Po(b1).value) + ToText(Po(b2).value)
  {
    PoAppend(b1, b2);
    ToTextAppend(Po(b1).value, Po(b2).value);
  }
}
