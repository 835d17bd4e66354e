/*
 * `generateVCard`: a vCard 3.0 text (RFC 2426) built from a template literal
 * with one content line per property, optional lines left empty when their
 * field is falsy, and the result passed through split / filter-non-blank /
 * join. Property values are inserted verbatim: no RFC 2426 escaping is
 * applied, so a value holding a line break spills onto further lines.
 */
module VCard {
  import opened Js

  datatype Card = Card(
    name: string,
    email: string,
    phone: Option<string>,
    company: Option<string>,
    title: Option<string>,
    website: Option<string>)

  /** A content line `NAME:value` (section 2.4.2 of RFC 2425, used by RFC 2426). */
  function Line(name: string, value: string): string {
    name + ":" + value
  }

  /** `${field ? `NAME:${field}` : ''}` */
  function OptionalLine(name: string, field: Option<string>): string {
    if Present(field) then Line(name, field.value) else ""
  }

  /** The nine lines of the template literal, before blank lines are dropped. */
  function TemplateLines(c: Card): seq<string> {
    [ Line("BEGIN", "VCARD"),
      Line("VERSION", "3.0"),
      Line("FN", c.name),
      Line("EMAIL", c.email),
      OptionalLine("TEL", c.phone),
      OptionalLine("ORG", c.company),
      OptionalLine("TITLE", c.title),
      OptionalLine("URL", c.website),
      Line("END", "VCARD") ]
  }

  /** `generateVCard(data)`: the template text split at newlines, blank lines dropped, joined again. */
  function GenerateVCard(c: Card): string {
    Normalize(Join(TemplateLines(c)))
  }

  /** The lines of the output. */
  function Lines(c: Card): seq<string> {
    Split(GenerateVCard(c))
  }

  /** No field of the card holds a line break of its own. */
  predicate NoNewlines(c: Card) {
    && '\n' !in c.name && '\n' !in c.email
    && (c.phone.Some? ==> '\n' !in c.phone.value)
    && (c.company.Some? ==> '\n' !in c.company.value)
    && (c.title.Some? ==> '\n' !in c.title.value)
    && (c.website.Some? ==> '\n' !in c.website.value)
  }

  /** The line for an optional property, as a list: one line when its field is set, none otherwise. */
  function OptionalEntry(name: string, field: Option<string>): seq<string> {
    if Present(field) then [Line(name, field.value)] else []
  }

  /** The optional lines whose fields are set, in template order. */
  function OptionalLines(c: Card): seq<string> {
    OptionalEntry("TEL", c.phone) + OptionalEntry("ORG", c.company)
    + OptionalEntry("TITLE", c.title) + OptionalEntry("URL", c.website)
  }

  /** Reference definition: the fixed property order, each optional line only when its field is set. */
  function ExpectedLines(c: Card): seq<string> {
    [Line("BEGIN", "VCARD"), Line("VERSION", "3.0"), Line("FN", c.name), Line("EMAIL", c.email)]
    + OptionalLines(c)
    + [Line("END", "VCARD")]
  }

  /** A line that holds no line break and is not blank. */
  predicate Clean(line: string) {
    '\n' !in line && !IsBlank(line)
  }

  /** The property name of a content line: the text before its first ':'. */
  function PropertyName(line: string): string {
    if line == [] || line[0] == ':' then [] else [line[0]] + PropertyName(line[1..])
  }

  /** The property names of the lines, in order. */
  function Names(lines: seq<string>): (r: seq<string>)
    ensures |r| == |lines|
  {
    if lines == [] then [] else [PropertyName(lines[0])] + Names(lines[1..])
  }

  /** `[name]` when the field is set, otherwise nothing. */
  function NameIf(name: string, field: Option<string>): seq<string> {
    if Present(field) then [name] else []
  }

  /** Reference definition of the property names of the output, in order. */
  function ExpectedNames(c: Card): seq<string> {
    ["BEGIN", "VERSION", "FN", "EMAIL"] + OptionalNames(c) + ["END"]
  }

  function OptionalNames(c: Card): seq<string> {
    NameIf("TEL", c.phone) + NameIf("ORG", c.company) + NameIf("TITLE", c.title) + NameIf("URL", c.website)
  }

  // ---------------------------------------------------------------------
  // Lines of the output, for every card

  lemma {:induction false} SplitAllAppend(a: seq<string>, b: seq<string>)
    ensures SplitAll(a + b) == SplitAll(a) + SplitAll(b)
  {
    if a == [] {
      assert a + b == b;
    } else {
      assert (a + b)[0] == a[0] && (a + b)[1..] == a[1..] + b;
      SplitAllAppend(a[1..], b);
    }
  }

  lemma FramedPieces(first: seq<string>, mid: seq<string>, last: seq<string>)
    requires forall i :: 0 <= i < |first| ==> Clean(first[i])
    requires forall i :: 0 <= i < |last| ==> Clean(last[i])
    ensures SplitAll(first + mid + last) == first + (SplitAll(mid) + last)
  {
    assert first + mid + last == first + (mid + last);
    SplitAllAppend(first, mid + last);
    SplitAllAppend(mid, last);
    SplitAllWithoutNewlines(first);
    SplitAllWithoutNewlines(last);
  }

  lemma FramedFilter(first: seq<string>, pieces: seq<string>, last: seq<string>)
    requires NonBlank(first) == first && NonBlank(last) == last
    ensures NonBlank(first + (pieces + last)) == first + NonBlank(pieces) + last
  {
    var kept := NonBlank(pieces);
    assert first + (kept + last) == first + kept + last;
    NonBlankAppend(pieces, last);
    NonBlankAppend(first, pieces + last);
  }

  /** Clean lines at both ends of a joined text come through normalization untouched;
      what lies between contributes its non-blank pieces. */
  lemma FramedNormalize(first: seq<string>, mid: seq<string>, last: seq<string>)
    requires |first| >= 1
    requires forall i :: 0 <= i < |first| ==> Clean(first[i])
    requires forall i :: 0 <= i < |last| ==> Clean(last[i])
    ensures Split(Normalize(Join(first + mid + last))) == first + NonBlank(SplitAll(mid)) + last
  {
    var all := first + mid + last;
    SplitOfJoin(all);
    FramedPieces(first, mid, last);
    NonBlankOfNonBlank(first);
    NonBlankOfNonBlank(last);
    FramedFilter(first, SplitAll(mid), last);
    var kept := first + NonBlank(SplitAll(mid)) + last;
    assert NonBlank(Split(Join(all))) == kept;
    assert kept[0] == first[0];
    NormalizedLines(Join(all));
  }

  /** A content line whose name starts with a capital letter is never blank. */
  lemma NamedLineNotBlank(name: string, value: string)
    requires |name| > 0 && 'A' <= name[0] <= 'Z'
    ensures !IsBlank(Line(name, value))
  {
    assert Line(name, value)[0] == name[0];
  }

  lemma LineWithoutNewline(name: string, value: string)
    requires '\n' !in name && '\n' !in value
    ensures '\n' !in Line(name, value)
  { }

  /** The fixed lines of the template are clean. */
  lemma FixedLinesClean()
    ensures Clean(Line("BEGIN", "VCARD")) && Clean(Line("VERSION", "3.0")) && Clean(Line("END", "VCARD"))
  {
    NamedLineNotBlank("BEGIN", "VCARD");
    NamedLineNotBlank("VERSION", "3.0");
    NamedLineNotBlank("END", "VCARD");
    LineWithoutNewline("BEGIN", "VCARD");
    LineWithoutNewline("VERSION", "3.0");
    LineWithoutNewline("END", "VCARD");
  }

  /** The output's lines are BEGIN and VERSION, the non-blank pieces of the six middle
      template lines, then END, whatever the fields hold. */
  lemma LinesArePieces(c: Card)
    ensures Lines(c) == [Line("BEGIN", "VCARD"), Line("VERSION", "3.0")]
                        + NonBlank(SplitAll(TemplateLines(c)[2..8])) + [Line("END", "VCARD")]
  {
    var t := TemplateLines(c);
    assert t == [t[0], t[1]] + t[2..8] + [t[8]];
    FixedLinesClean();
    FramedNormalize([t[0], t[1]], t[2..8], [t[8]]);
  }

  /** For every card: the output begins with BEGIN and VERSION, ends with END, and has no blank line. */
  lemma Frame(c: Card)
    ensures |Lines(c)| >= 3
    ensures Lines(c)[0] == Line("BEGIN", "VCARD") && Lines(c)[1] == Line("VERSION", "3.0")
    ensures Lines(c)[|Lines(c)| - 1] == Line("END", "VCARD")
    ensures forall i :: 0 <= i < |Lines(c)| ==> !IsBlank(Lines(c)[i])
  {
    LinesArePieces(c);
    FixedLinesClean();
  }

  /** Running the same split / filter / join over the output again leaves it unchanged. */
  lemma Idempotent(c: Card)
    ensures Normalize(GenerateVCard(c)) == GenerateVCard(c)
  {
    NormalizeIdempotent(Join(TemplateLines(c)));
  }

  // ---------------------------------------------------------------------
  // Exact lines, for cards whose fields hold no line break

  lemma OptionalWithoutNewline(name: string, field: Option<string>)
    requires '\n' !in name
    requires field.Some? ==> '\n' !in field.value
    ensures '\n' !in OptionalLine(name, field)
  { }

  /** The middle template lines of a card whose fields hold no line break have no line break either. */
  lemma MiddleUnsplit(c: Card)
    requires NoNewlines(c)
    ensures SplitAll(TemplateLines(c)[2..8]) == TemplateLines(c)[2..8]
  {
    LineWithoutNewline("FN", c.name);
    LineWithoutNewline("EMAIL", c.email);
    OptionalWithoutNewline("TEL", c.phone);
    OptionalWithoutNewline("ORG", c.company);
    OptionalWithoutNewline("TITLE", c.title);
    OptionalWithoutNewline("URL", c.website);
    SplitAllWithoutNewlines(TemplateLines(c)[2..8]);
  }

  /** An optional line survives the filter exactly when its field is set. */
  lemma OptionalLineKept(name: string, field: Option<string>)
    requires |name| > 0 && 'A' <= name[0] <= 'Z'
    ensures NonBlank([OptionalLine(name, field)]) == OptionalEntry(name, field)
  {
    if Present(field) {
      NamedLineNotBlank(name, field.value);
    } else {
      assert IsBlank("");
    }
  }

  /** Filtering the four optional template lines keeps the present ones. */
  lemma OptionalLinesFiltered(c: Card)
    ensures NonBlank(TemplateLines(c)[4..8]) == OptionalLines(c)
  {
    var t := TemplateLines(c);
    assert t[4..8] == [t[4]] + [t[5]] + [t[6]] + [t[7]];
    OptionalLineKept("TEL", c.phone);
    OptionalLineKept("ORG", c.company);
    OptionalLineKept("TITLE", c.title);
    OptionalLineKept("URL", c.website);
    NonBlankAppend([t[4]] + [t[5]] + [t[6]], [t[7]]);
    NonBlankAppend([t[4]] + [t[5]], [t[6]]);
    NonBlankAppend([t[4]], [t[5]]);
  }

  lemma MiddleAppend(c: Card)
    ensures NonBlank(TemplateLines(c)[2..8]) == NonBlank(TemplateLines(c)[2..4]) + NonBlank(TemplateLines(c)[4..8])
  {
    var t := TemplateLines(c);
    assert t[2..8] == t[2..4] + t[4..8];
    NonBlankAppend(t[2..4], t[4..8]);
  }

  lemma NamedLinesKept(c: Card)
    ensures NonBlank(TemplateLines(c)[2..4]) == [Line("FN", c.name), Line("EMAIL", c.email)]
  {
    NamedLineNotBlank("FN", c.name);
    NamedLineNotBlank("EMAIL", c.email);
    NonBlankOfNonBlank(TemplateLines(c)[2..4]);
  }

  /** The middle lines that survive: FN and EMAIL always, then the present optional lines. */
  lemma MiddleFiltered(c: Card)
    requires NoNewlines(c)
    ensures NonBlank(SplitAll(TemplateLines(c)[2..8])) == [Line("FN", c.name), Line("EMAIL", c.email)] + OptionalLines(c)
  {
    MiddleUnsplit(c);
    MiddleAppend(c);
    NamedLinesKept(c);
    OptionalLinesFiltered(c);
  }

  /** Regrouping the concatenation of the fixed and optional lines; kept apart from `ExactLines`
      so that the literal lines are not unfolded there. */
  lemma Regroup(begin: string, version: string, fn: string, email: string, optional: seq<string>, end: string)
    ensures [begin, version] + ([fn, email] + optional) + [end] == [begin, version, fn, email] + optional + [end]
  { }

  lemma OutputIsJoinedLines(c: Card)
    ensures GenerateVCard(c) == Join(Lines(c))
  {
    JoinSplit(GenerateVCard(c));
  }

  /** When no field holds a line break, the output is exactly the present lines in the fixed order. */
  lemma ExactLines(c: Card)
    requires NoNewlines(c)
    ensures Lines(c) == ExpectedLines(c)
    ensures GenerateVCard(c) == Join(ExpectedLines(c))
  {
    LinesArePieces(c);
    MiddleFiltered(c);
    Regroup(Line("BEGIN", "VCARD"), Line("VERSION", "3.0"), Line("FN", c.name), Line("EMAIL", c.email),
      OptionalLines(c), Line("END", "VCARD"));
    OutputIsJoinedLines(c);
  }

  /** A card without phone and company, with title and website, gives exactly seven lines:
      BEGIN, VERSION, FN, EMAIL, TITLE, URL, END. */
  lemma SevenLines(c: Card)
    requires NoNewlines(c)
    requires !Present(c.phone) && !Present(c.company) && Present(c.title) && Present(c.website)
    ensures Lines(c) == [
      Line("BEGIN", "VCARD"), Line("VERSION", "3.0"), Line("FN", c.name), Line("EMAIL", c.email),
      Line("TITLE", c.title.value), Line("URL", c.website.value), Line("END", "VCARD")]
  {
    ExactLines(c);
  }

  // ---------------------------------------------------------------------
  // Property names of the output

  lemma {:induction false} PropertyNameOf(name: string, value: string)
    requires ':' !in name
    ensures PropertyName(Line(name, value)) == name
  {
    if name != [] {
      assert Line(name, value)[1..] == Line(name[1..], value);
      PropertyNameOf(name[1..], value);
    }
  }

  lemma {:induction false} NamesAppend(a: seq<string>, b: seq<string>)
    ensures Names(a + b) == Names(a) + Names(b)
  {
    if a == [] {
      assert a + b == b;
    } else {
      assert (a + b)[1..] == a[1..] + b;
      NamesAppend(a[1..], b);
    }
  }

  lemma NamesOfThree(a: seq<string>, b: seq<string>, d: seq<string>)
    ensures Names(a + b + d) == Names(a) + Names(b) + Names(d)
  {
    NamesAppend(a + b, d);
    NamesAppend(a, b);
  }

  lemma NamesOfFour(a: seq<string>, b: seq<string>, d: seq<string>, e: seq<string>)
    ensures Names(a + b + d + e) == Names(a) + Names(b) + Names(d) + Names(e)
  {
    NamesOfThree(a, b, d);
    NamesAppend(a + b + d, e);
  }

  lemma NameOfLine(name: string, value: string)
    requires ':' !in name
    ensures Names([Line(name, value)]) == [name]
  {
    PropertyNameOf(name, value);
  }

  lemma NamesOfFourLines(n1: string, v1: string, n2: string, v2: string,
                         n3: string, v3: string, n4: string, v4: string)
    requires ':' !in n1 && ':' !in n2 && ':' !in n3 && ':' !in n4
    ensures Names([Line(n1, v1), Line(n2, v2), Line(n3, v3), Line(n4, v4)]) == [n1, n2, n3, n4]
  {
    var l1, l2, l3, l4 := [Line(n1, v1)], [Line(n2, v2)], [Line(n3, v3)], [Line(n4, v4)];
    NameOfLine(n1, v1);
    NameOfLine(n2, v2);
    NameOfLine(n3, v3);
    NameOfLine(n4, v4);
    assert l1 + l2 + l3 + l4 == [Line(n1, v1), Line(n2, v2), Line(n3, v3), Line(n4, v4)];
    NamesOfFour(l1, l2, l3, l4);
  }

  lemma HeadNames(name: string, email: string)
    ensures Names([Line("BEGIN", "VCARD"), Line("VERSION", "3.0"), Line("FN", name), Line("EMAIL", email)])
         == ["BEGIN", "VERSION", "FN", "EMAIL"]
  {
    NamesOfFourLines("BEGIN", "VCARD", "VERSION", "3.0", "FN", name, "EMAIL", email);
  }

  lemma OptionalEntryName(name: string, field: Option<string>)
    requires ':' !in name
    ensures Names(OptionalEntry(name, field)) == NameIf(name, field)
  {
    if Present(field) {
      NameOfLine(name, field.value);
    }
  }

  lemma OptionalLineNames(c: Card)
    ensures Names(OptionalLines(c)) == OptionalNames(c)
  {
    OptionalEntryName("TEL", c.phone);
    OptionalEntryName("ORG", c.company);
    OptionalEntryName("TITLE", c.title);
    OptionalEntryName("URL", c.website);
    NamesOfFour(OptionalEntry("TEL", c.phone), OptionalEntry("ORG", c.company),
      OptionalEntry("TITLE", c.title), OptionalEntry("URL", c.website));
  }

  lemma ExpectedLineNames(c: Card)
    ensures Names(ExpectedLines(c)) == ExpectedNames(c)
  {
    var head := [Line("BEGIN", "VCARD"), Line("VERSION", "3.0"), Line("FN", c.name), Line("EMAIL", c.email)];
    NamesOfThree(head, OptionalLines(c), [Line("END", "VCARD")]);
    HeadNames(c.name, c.email);
    NameOfLine("END", "VCARD");
    OptionalLineNames(c);
  }

  /** The property names of the output, when no field holds a line break: the fixed order
      BEGIN, VERSION, FN, EMAIL, TEL, ORG, TITLE, URL, END with exactly the unset optional ones left out. */
  lemma PropertyOrder(c: Card)
    requires NoNewlines(c)
    ensures Names(Lines(c)) == ExpectedNames(c)
  {
    ExactLines(c);
    ExpectedLineNames(c);
  }

  lemma InNameIf(x: string, name: string, field: Option<string>)
    ensures x in NameIf(name, field) <==> x == name && Present(field)
  { }

  /** Which names occur in the expected names, one test per piece. */
  lemma InExpectedNames(c: Card, x: string)
    ensures x in ExpectedNames(c) <==>
      || x in ["BEGIN", "VERSION", "FN", "EMAIL"] || x == "END"
      || x in NameIf("TEL", c.phone) || x in NameIf("ORG", c.company)
      || x in NameIf("TITLE", c.title) || x in NameIf("URL", c.website)
  { }

  lemma OptionalNamePresence(c: Card, name: string, field: Option<string>)
    requires name in ["TEL", "ORG", "TITLE", "URL"]
    requires field == (if name == "TEL" then c.phone else if name == "ORG" then c.company
                       else if name == "TITLE" then c.title else c.website)
    ensures name in ExpectedNames(c) <==> Present(field)
  {
    InExpectedNames(c, name);
    InNameIf(name, "TEL", c.phone);
    InNameIf(name, "ORG", c.company);
    InNameIf(name, "TITLE", c.title);
    InNameIf(name, "URL", c.website);
  }

  /** Each optional line appears exactly when its field is set; FN and EMAIL always do
      (fields without line breaks). */
  lemma OptionalLinePresence(c: Card)
    requires NoNewlines(c)
    ensures "FN" in Names(Lines(c)) && "EMAIL" in Names(Lines(c))
    ensures "TEL" in Names(Lines(c)) <==> Present(c.phone)
    ensures "ORG" in Names(Lines(c)) <==> Present(c.company)
    ensures "TITLE" in Names(Lines(c)) <==> Present(c.title)
    ensures "URL" in Names(Lines(c)) <==> Present(c.website)
  {
    PropertyOrder(c);
    InExpectedNames(c, "FN");
    InExpectedNames(c, "EMAIL");
    OptionalNamePresence(c, "TEL", c.phone);
    OptionalNamePresence(c, "ORG", c.company);
    OptionalNamePresence(c, "TITLE", c.title);
    OptionalNamePresence(c, "URL", c.website);
  }
}
