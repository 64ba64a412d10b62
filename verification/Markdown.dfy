/** MEMORY.md: the printer that groups entries under section headings, the line parser, and
    the exact condition under which parsing brings back what was printed. */
module Markdown {
  import opened GoStrings
  import opened Options
  import opened TextCodec
  import opened TextLines

  /** A date and the time of day on it, which the file does not keep. */
  datatype Instant = Instant(date: CalendarDate, clock: nat)

  datatype Entry = Entry(section: string, key: string, value: string, source: string,
                         version: Int64, confidence: real, updatedAt: Instant)

  /** url.QueryEscape and url.QueryUnescape. */
  datatype Escaping = Escaping(escape: string -> string, unescape: string -> Option<string>)

  /** Unescaping undoes escaping, and escaped text has neither white space nor backticks. */
  ghost predicate IsEscaping(q: Escaping) {
    forall s :: q.unescape(q.escape(s)) == Some(s) && NoSpaces(q.escape(s)) && '`' !in q.escape(s)
  }

  // ---- Parsing ----

  datatype Meta = Meta(version: Int64, confidence: real, updatedAt: Instant, source: string)

  function ApplyField(q: Escaping, m: Meta, field: string): Meta {
    var source := if HasPrefix(field, "src=") then q.unescape(field[4..]) else None;
    var version := if HasPrefix(field, "v") then Atoi(field[1..]) else None;
    var confidence := if HasPrefix(field, "c") then ParseFloat(field[1..]) else None;
    var date := ParseDate(field);
    Meta(if version.Some? then version.value else m.version,
         if confidence.Some? then confidence.value else m.confidence,
         if date.Some? then Instant(date.value, 0) else m.updatedAt,
         if source.Some? then source.value else m.source)
  }

  function ApplyFields(q: Escaping, m: Meta, fields: seq<string>): Meta
    decreases |fields|
  {
    if fields == [] then m else ApplyFields(q, ApplyField(q, m, fields[0]), fields[1..])
  }

  function ParseMeta(q: Escaping, text: string, m: Meta): Meta {
    ApplyFields(q, m, Fields(TrimChar(text, '`')))
  }

  /** An item line under a section, already trimmed. */
  function ParseItem(q: Escaping, now: Instant, line: string, section: string): Option<Entry> {
    if !HasPrefix(line, "- ") || section == "" then None
    else
      var rest := line[2..];
      var idx := Index(rest, ": ");
      if idx <= 0 then None
      else
        var key, text := TrimSpace(rest[..idx]), TrimSpace(rest[idx + 2..]);
        var at := LastIndex(text, "`v");
        var plain := Meta(1, 1.0, now, "");
        var m := if at > 0 then ParseMeta(q, text[at..], plain) else plain;
        Some(Entry(section, key, if at > 0 then TrimSpace(text[..at]) else text,
                   m.source, m.version, m.confidence, m.updatedAt))
  }

  datatype Parsed = Parsed(entries: seq<Entry>, ok: bool)

  function ParseLines(q: Escaping, now: Instant, lines: seq<string>, section: string): Parsed
    decreases |lines|
  {
    if lines == [] then Parsed([], true)
    else if !Fits(lines[0]) then Parsed([], false)
    else
      var line := TrimSpace(lines[0]);
      if HasPrefix(line, "## ") then ParseLines(q, now, lines[1..], TrimSpace(line[3..]))
      else
        var item := ParseItem(q, now, line, section);
        var rest := ParseLines(q, now, lines[1..], section);
        if item.Some? then Parsed([item.value] + rest.entries, rest.ok) else rest
  }

  function Parse(q: Escaping, now: Instant, data: string): Parsed {
    ParseLines(q, now, Split(data, '\n'), "")
  }

  method ParseMarkdownMeta(q: Escaping, text: string, m0: Meta) returns (m: Meta)
    ensures m == ParseMeta(q, text, m0)
  {
    m := m0;
    var parts := Fields(TrimChar(text, '`'));
    for i := 0 to |parts|
      invariant ApplyFields(q, m0, parts) == ApplyFields(q, m, parts[i..])
    {
      var p := parts[i];
      ghost var before := m;
      if HasPrefix(p, "src=") {
        var s := q.unescape(p[4..]);
        if s.Some? { m := m.(source := s.value); }
      }
      if HasPrefix(p, "v") {
        var v := Atoi(p[1..]);
        if v.Some? { m := m.(version := v.value); }
      }
      if HasPrefix(p, "c") {
        var c := ParseFloat(p[1..]);
        if c.Some? { m := m.(confidence := c.value); }
      }
      var t := ParseDate(p);
      if t.Some? { m := m.(updatedAt := Instant(t.value, 0)); }
      assert m == ApplyField(q, before, p);
      assert parts[i..][1..] == parts[i + 1..];
    }
  }

  /** The parser: a scanner over the lines with the current section in a variable. */
  method ParseMarkdown(q: Escaping, now: Instant, data: string) returns (entries: seq<Entry>, ok: bool)
    ensures Parse(q, now, data) == Parsed(entries, ok)
  {
    hide Fits, ParseItem, TrimSpace, HasPrefix;
    entries := [];
    var section := "";
    var lines := Split(data, '\n');
    for i := 0 to |lines|
      invariant Parse(q, now, data) == After(entries, ParseLines(q, now, lines[i..], section))
    {
      assert lines[i..][1..] == lines[i + 1..];
      if !Fits(lines[i]) { return entries, false; }
      var trimmed := TrimSpace(lines[i]);
      if HasPrefix(trimmed, "## ") {
        PrefixLength(trimmed, "## ");
        section := TrimSpace(trimmed[3..]);
        continue;
      }
      var item := ParseEntry(q, now, trimmed, section);
      if item.Some? {
        AfterOneMore(entries, item.value, ParseLines(q, now, lines[i + 1..], section));
        entries := entries + [item.value];
      }
    }
    return entries, true;
  }

  function After(entries: seq<Entry>, rest: Parsed): Parsed {
    Parsed(entries + rest.entries, rest.ok)
  }

  lemma AfterOneMore(entries: seq<Entry>, e: Entry, rest: Parsed)
    ensures After(entries, Parsed([e] + rest.entries, rest.ok)) == After(entries + [e], rest)
  {
    assert entries + ([e] + rest.entries) == (entries + [e]) + rest.entries;
  }

  method ParseEntry(q: Escaping, now: Instant, trimmed: string, section: string) returns (item: Option<Entry>)
    ensures item == ParseItem(q, now, trimmed, section)
  {
    hide ParseMeta, TrimSpace, Index, LastIndex;
    if !HasPrefix(trimmed, "- ") || section == "" { return None; }
    var rest := trimmed[2..];
    var idx := Index(rest, ": ");
    if idx <= 0 { return None; }
    var key, text := TrimSpace(rest[..idx]), TrimSpace(rest[idx + 2..]);
    var value, m := text, Meta(1, 1.0, now, "");
    var metaIdx := LastIndex(text, "`v");
    if metaIdx > 0 {
      value := TrimSpace(text[..metaIdx]);
      m := ParseMarkdownMeta(q, text[metaIdx..], m);
    }
    return Some(Entry(section, key, value, m.source, m.version, m.confidence, m.updatedAt));
  }

  lemma PrefixLength(s: string, prefix: string)
    requires HasPrefix(s, prefix)
    ensures |prefix| <= |s| && s[..|prefix|] == prefix
  {
  }

  // ---- Printing ----

  function MetaFields(q: Escaping, e: Entry): string {
    "v" + IntText(e.version) + " " + ("c" + RealText(e.confidence)) + " " + DateText(e.updatedAt.date)
    + (if e.source != "" then " " + ("src=" + q.escape(e.source)) else "")
  }

  function MetaText(q: Escaping, e: Entry): string {
    "`" + MetaFields(q, e) + "`"
  }

  function ItemLine(q: Escaping, e: Entry): string {
    "- " + e.key + ": " + e.value + "  " + MetaText(q, e)
  }

  function GroupKey(lower: CaseMap, e: Entry): string {
    Normalize(lower, e.section)
  }

  /** The group keys in the order they are first seen. */
  function Keys(lower: CaseMap, es: seq<Entry>): seq<string> {
    if es == [] then []
    else
      var ks, k := Keys(lower, es[..|es| - 1]), GroupKey(lower, es[|es| - 1]);
      if k in ks then ks else ks + [k]
  }

  function Members(lower: CaseMap, es: seq<Entry>, k: string): seq<Entry> {
    if es == [] then []
    else
      var last := es[|es| - 1];
      Members(lower, es[..|es| - 1], k) + if GroupKey(lower, last) == k then [last] else []
  }

  /** A group's heading: the section as its first member spells it. */
  function Title(lower: CaseMap, es: seq<Entry>, k: string): string {
    var ms := Members(lower, es, k);
    if ms == [] then "" else ms[0].section
  }

  function ItemLines(q: Escaping, es: seq<Entry>): seq<string> {
    if es == [] then [] else [ItemLine(q, es[0])] + ItemLines(q, es[1..])
  }

  function BlockLines(q: Escaping, title: string, es: seq<Entry>): seq<string> {
    ["## " + title] + ItemLines(q, es) + [""]
  }

  function Blocks(lower: CaseMap, q: Escaping, es: seq<Entry>, ks: seq<string>): seq<string> {
    if ks == [] then []
    else BlockLines(q, Title(lower, es, ks[0]), Members(lower, es, ks[0])) + Blocks(lower, q, es, ks[1..])
  }

  function FileLines(lower: CaseMap, q: Escaping, es: seq<Entry>): seq<string> {
    ["# Project Memory", ""] + Blocks(lower, q, es, Keys(lower, es))
  }

  function Format(lower: CaseMap, q: Escaping, es: seq<Entry>): string {
    Unlines(FileLines(lower, q, es))
  }

  lemma {:induction false} KeysAreGroups(lower: CaseMap, es: seq<Entry>, k: string)
    ensures k in Keys(lower, es) <==> Members(lower, es, k) != []
  {
    hide GroupKey;
    if es != [] { KeysAreGroups(lower, es[..|es| - 1], k); }
  }

  /** The order is that of first sight, and within a group that of the entries: what comes
      later adds groups and entries behind those there are. */
  lemma {:induction false} GroupsGrow(lower: CaseMap, a: seq<Entry>, b: seq<Entry>, k: string)
    ensures Keys(lower, a) <= Keys(lower, a + b)
    ensures Members(lower, a + b, k) == Members(lower, a, k) + Members(lower, b, k)
  {
    hide GroupKey;
    if b == [] {
      assert a + b == a;
    } else {
      var front, e := b[..|b| - 1], b[|b| - 1];
      GroupsGrow(lower, a, front, k);
      assert (a + b)[..|a + b| - 1] == a + front;
    }
  }

  /** The heading is the section as the first entry of the group spells it. */
  lemma TitleIsFirstSpelling(lower: CaseMap, es: seq<Entry>, i: nat)
    requires i < |es| && forall j :: 0 <= j < i ==> GroupKey(lower, es[j]) != GroupKey(lower, es[i])
    ensures Title(lower, es, GroupKey(lower, es[i])) == es[i].section
  {
    var k := GroupKey(lower, es[i]);
    var before, rest := es[..i], es[i + 1..];
    assert es == before + ([es[i]] + rest);
    GroupsGrow(lower, before, [es[i]] + rest, k);
    GroupsGrow(lower, [es[i]], rest, k);
    NoMembers(lower, before, k);
    OneMember(lower, es[i]);
    hide Members, GroupKey;
    assert Members(lower, es, k)[0] == es[i];
  }

  lemma {:induction false} NoMembers(lower: CaseMap, es: seq<Entry>, k: string)
    requires forall j :: 0 <= j < |es| ==> GroupKey(lower, es[j]) != k
    ensures Members(lower, es, k) == []
  {
    hide GroupKey;
    if es != [] { NoMembers(lower, es[..|es| - 1], k); }
  }

  lemma OneMember(lower: CaseMap, e: Entry)
    ensures Members(lower, [e], GroupKey(lower, e)) == [e]
  {
    hide GroupKey;
    assert [e][..0] == [];
  }

  datatype Section = Section(title: string, entries: seq<Entry>)

  /** The printer: groups are collected in a map beside the order they appeared in. */
  method FormatMarkdown(lower: CaseMap, q: Escaping, es: seq<Entry>) returns (text: string)
    ensures text == Format(lower, q, es)
  {
    var order, groups := CollectGroups(lower, es);
    hide Title, Members, Keys, BlockLines, ItemLines;
    text := "# Project Memory\n\n";
    HeaderText(Blocks(lower, q, es, order));
    for i := 0 to |order|
      invariant Format(lower, q, es) == text + Unlines(Blocks(lower, q, es, order[i..]))
    {
      var g := groups[order[i]];
      var block := FormatSection(q, g);
      assert order[i..][1..] == order[i + 1..];
      UnlinesJoins(BlockLines(q, g.title, g.entries), Blocks(lower, q, es, order[i + 1..]));
      Reassociate(text, block, Unlines(Blocks(lower, q, es, order[i + 1..])));
      text := text + block;
    }
    assert order[|order|..] == [];
    assert text + [] == text;
  }

  lemma Reassociate(a: string, b: string, c: string)
    ensures a + (b + c) == (a + b) + c
  {
  }

  lemma HeaderText(blocks: seq<string>)
    ensures Unlines(["# Project Memory", ""] + blocks) == "# Project Memory\n\n" + Unlines(blocks)
  {
    UnlinesJoins(["# Project Memory", ""], blocks);
    var header := ["# Project Memory", ""];
    assert header[1..] == [""] && header[1..][1..] == [];
    assert Unlines([""]) == "\n";
    assert Unlines(header) == "# Project Memory\n\n";
  }

  method FormatSection(q: Escaping, g: Section) returns (text: string)
    ensures text == Unlines(BlockLines(q, g.title, g.entries))
  {
    hide ItemLine;
    text := "## " + g.title + "\n";
    ghost var all := BlockLines(q, g.title, g.entries);
    UnlinesJoins(["## " + g.title], ItemLines(q, g.entries) + [""]);
    assert all == ["## " + g.title] + (ItemLines(q, g.entries) + [""]);
    OneLine("## " + g.title);
    for i := 0 to |g.entries|
      invariant Unlines(all) == text + Unlines(ItemLines(q, g.entries[i..]) + [""])
    {
      var e := g.entries[i];
      assert g.entries[i..][1..] == g.entries[i + 1..];
      ghost var rest := ItemLines(q, g.entries[i + 1..]) + [""];
      assert ItemLines(q, g.entries[i..]) + [""] == [ItemLine(q, e)] + rest;
      UnlinesJoins([ItemLine(q, e)], rest);
      OneLine(ItemLine(q, e));
      Reassociate(text, ItemLine(q, e) + "\n", Unlines(rest));
      text := text + (ItemLine(q, e) + "\n");
    }
    assert g.entries[|g.entries|..] == [];
    assert ItemLines(q, []) + [""] == [""];
    OneLine("");
    text := text + "\n";
  }

  method CollectGroups(lower: CaseMap, es: seq<Entry>) returns (order: seq<string>, groups: map<string, Section>)
    ensures order == Keys(lower, es)
    ensures forall k :: k in order ==> k in groups && groups[k] == Section(Title(lower, es, k), Members(lower, es, k))
  {
    hide GroupKey, Keys, Members, Title;
    order, groups := [], map[];
    NothingGrouped(lower, es);
    for i := 0 to |es|
      invariant order == Keys(lower, es[..i])
      invariant forall k :: k in groups <==> k in order
      invariant forall k :: k in groups ==> groups[k] == Section(Title(lower, es[..i], k), Members(lower, es[..i], k))
    {
      var e := es[i];
      var key := GroupKey(lower, e);
      OneMoreGrouped(lower, es, i);
      if key !in groups {
        groups := groups[key := Section(e.section, [])];
        order := order + [key];
      }
      var g := groups[key];
      groups := groups[key := g.(entries := g.entries + [e])];
    }
    assert es[..|es|] == es;
  }

  lemma NothingGrouped(lower: CaseMap, es: seq<Entry>)
    ensures Keys(lower, es[..0]) == []
  {
  }

  /** What the next entry does to the groups. */
  lemma OneMoreGrouped(lower: CaseMap, es: seq<Entry>, i: nat)
    requires i < |es|
    ensures var before, after, e := es[..i], es[..i + 1], es[i];
            var key := GroupKey(lower, e);
            && Keys(lower, after) == (if key in Keys(lower, before) then Keys(lower, before) else Keys(lower, before) + [key])
            && (forall k :: k != key ==>
                  Members(lower, after, k) == Members(lower, before, k) && Title(lower, after, k) == Title(lower, before, k))
            && Members(lower, after, key) == (if key in Keys(lower, before) then Members(lower, before, key) else []) + [e]
            && Title(lower, after, key) == if key in Keys(lower, before) then Title(lower, before, key) else e.section
  {
    hide GroupKey;
    assert es[..i + 1][..i] == es[..i];
    KeysAreGroups(lower, es[..i], GroupKey(lower, es[i]));
    forall k | k != GroupKey(lower, es[i]) ensures Members(lower, es[..i + 1], k) == Members(lower, es[..i], k) {}
  }
}
