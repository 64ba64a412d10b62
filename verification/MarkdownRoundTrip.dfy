/** Printing and parsing MEMORY.md: exactly when the round trip is the identity up to the
    regrouping by section. */
module MarkdownRoundTrip {
  import opened GoStrings
  import opened Options
  import opened TextCodec
  import opened TextLines
  import opened Markdown

  /** What the file can hold as a heading or a value. */
  predicate Plain(s: string) {
    s != "" && Trimmed(s) && OneLineText(s)
  }

  predicate StorableKey(key: string) {
    Trimmed(key) && OneLineText(key) && !Contains(key, ": ")
  }

  predicate StorableItem(e: Entry) {
    StorableKey(e.key) && Plain(e.value)
  }

  /** What is left of an entry once it has been through the file. */
  function Kept(e: Entry, title: string): Entry {
    e.(section := title, confidence := RoundHundredths(e.confidence), updatedAt := Instant(e.updatedAt.date, 0))
  }

  // ---- One item ----

  lemma WordsOfMeta(a: string, b: string, c: string)
    requires a != [] && b != [] && c != [] && NoSpaces(a) && NoSpaces(b) && NoSpaces(c)
    ensures Fields(a + " " + b + " " + c) == [a, b, c]
  {
    hide Fields, IsSpace, NoSpaces;
    Blank();
    FirstField(c, "");
    assert c + "" == c && Fields("") == [] by { NoFields(); }
    FirstField(b, " " + c);
    SkipsBlank(c);
    FirstField(a, " " + (b + " " + c));
    SkipsBlank(b + " " + c);
    assert b + (" " + c) == b + " " + c;
    assert a + (" " + (b + " " + c)) == a + " " + b + " " + c;
  }

  lemma Blank()
    ensures forall s: string :: s != [] && s[0] == ' ' ==> IsSpace(s[0])
  {
  }

  lemma NoFields()
    ensures Fields("") == []
  {
  }

  lemma SkipsBlank(s: string)
    ensures Fields(" " + s) == Fields(s) && (" " + s)[0] == ' '
  {
    assert (" " + s)[1..] == s;
  }

  lemma WordsWithSource(a: string, b: string, c: string, d: string)
    requires a != [] && b != [] && c != [] && d != []
    requires NoSpaces(a) && NoSpaces(b) && NoSpaces(c) && NoSpaces(d)
    ensures Fields(a + " " + b + " " + c + " " + d) == [a, b, c, d]
  {
    hide Fields, IsSpace, NoSpaces;
    WordsOfMeta(b, c, d);
    Blank();
    SkipsBlank(b + " " + c + " " + d);
    FirstField(a, " " + (b + " " + c + " " + d));
    assert a + (" " + (b + " " + c + " " + d)) == a + " " + b + " " + c + " " + d;
  }

  predicate Printable(s: string) {
    NoSpaces(s) && '`' !in s
  }

  lemma DigitsArePrintable(s: string)
    requires forall i :: 0 <= i < |s| ==> IsDigit(s[i]) || s[i] in {'-', '.'}
    ensures Printable(s)
  {
  }

  lemma NumbersArePrintable(n: int, c: real, d: CalendarDate)
    ensures Printable(IntText(n)) && Printable(RealText(c)) && Printable(DateText(d))
  {
    DigitsArePrintable(IntText(n));
    DigitsArePrintable(RealText(c));
    DigitsArePrintable(DateText(d));
  }

  lemma Prefixed(c: char, s: string)
    requires Printable(s) && !IsSpace(c) && c != '`'
    ensures Printable([c] + s) && ([c] + s)[1..] == s
  {
  }

  lemma MetaFieldsAreClean(q: Escaping, e: Entry)
    requires IsEscaping(q)
    ensures '`' !in MetaFields(q, e) && OneLineText(MetaFields(q, e)) && MetaFields(q, e) != "" && MetaFields(q, e)[0] == 'v'
  {
    hide NoSpaces, IntText, RealText, DateText;
    NumbersArePrintable(e.version, e.confidence, e.updatedAt.date);
    OneLineWords(IntText(e.version));
    OneLineWords(RealText(e.confidence));
    OneLineWords(DateText(e.updatedAt.date));
    OneLineWords(q.escape(e.source));
  }

  lemma OneLineWords(s: string)
    requires NoSpaces(s)
    ensures OneLineText(s)
  {
  }

  lemma TrimQuotes(s: string)
    requires '`' !in s && s != ""
    ensures TrimChar("`" + s + "`", '`') == s
  {
    var t := "`" + s + "`";
    assert t[1..] == s + "`";
    var u := s + "`";
    assert u[..|u| - 1] == s && u[0] == s[0] && u[|u| - 1] == '`';
    assert s[0] in s && s[|s| - 1] in s;
    assert TrimChar(s, '`') == s;
  }

  lemma FieldsOfMeta(q: Escaping, e: Entry)
    requires IsEscaping(q)
    ensures Fields(TrimChar(MetaText(q, e), '`')) ==
              ["v" + IntText(e.version), "c" + RealText(e.confidence), DateText(e.updatedAt.date)]
              + if e.source != "" then ["src=" + q.escape(e.source)] else []
  {
    hide IntText, RealText, DateText, Fields, NoSpaces, TrimChar;
    MetaFieldsAreClean(q, e);
    TrimQuotes(MetaFields(q, e));
    NumbersArePrintable(e.version, e.confidence, e.updatedAt.date);
    Prefixed('v', IntText(e.version));
    Prefixed('c', RealText(e.confidence));
    WordsOfMeta("v" + IntText(e.version), "c" + RealText(e.confidence), DateText(e.updatedAt.date));
    if e.source != "" {
      SourceIsWord(q.escape(e.source));
      WordsWithSource("v" + IntText(e.version), "c" + RealText(e.confidence), DateText(e.updatedAt.date),
                      "src=" + q.escape(e.source));
      MetaFieldsWithSource(q, e);
    } else {
      assert MetaFields(q, e) ==
               "v" + IntText(e.version) + " " + ("c" + RealText(e.confidence)) + " " + DateText(e.updatedAt.date);
    }
  }

  lemma MetaFieldsWithSource(q: Escaping, e: Entry)
    requires e.source != ""
    ensures MetaFields(q, e) == "v" + IntText(e.version) + " " + ("c" + RealText(e.confidence)) + " " + DateText(e.updatedAt.date)
                           + " " + ("src=" + q.escape(e.source))
  {
    hide IntText, RealText, DateText;
    var a := "v" + IntText(e.version) + " " + ("c" + RealText(e.confidence)) + " " + DateText(e.updatedAt.date);
    var b := "src=" + q.escape(e.source);
    assert a + (" " + b) == a + " " + b;
  }

  lemma SourceIsWord(s: string)
    requires NoSpaces(s)
    ensures NoSpaces("src=" + s) && "src=" + s != "" && ("src=" + s)[4..] == s
  {
  }

  lemma VersionField(q: Escaping, m: Meta, n: Int64)
    ensures ApplyField(q, m, "v" + IntText(n)) == m.(version := n)
  {
    hide IntText, Atoi;
    var f := "v" + IntText(n);
    assert f[0] == 'v' && f[1..] == IntText(n);
    assert f[..1] == "v";
    PrefixStarts(f, "src=");
    PrefixStarts(f, "c");
    IntRoundTrip(n);
    NotADate(f);
  }

  lemma NotADate(s: string)
    requires s != "" && !IsDigit(s[0])
    ensures ParseDate(s).None?
  {
    if |s| == 10 { assert s[..4][0] == s[0]; }
  }

  lemma ConfidenceField(q: Escaping, m: Meta, c: real)
    ensures ApplyField(q, m, "c" + RealText(c)) == m.(confidence := RoundHundredths(c))
  {
    hide RealText, ParseFloat;
    var f := "c" + RealText(c);
    assert f[0] == 'c' && f[1..] == RealText(c);
    assert f[..1] == "c";
    PrefixStarts(f, "src=");
    PrefixStarts(f, "v");
    RealRoundTrip(c);
    NotADate(f);
  }

  lemma DateField(q: Escaping, m: Meta, d: CalendarDate)
    ensures ApplyField(q, m, DateText(d)) == m.(updatedAt := Instant(d, 0))
  {
    hide DateText;
    var f := DateText(d);
    PrefixStarts(f, "src=");
    PrefixStarts(f, "v");
    PrefixStarts(f, "c");
    DateRoundTrip(d);
  }

  lemma SourceField(q: Escaping, m: Meta, s: string)
    requires IsEscaping(q)
    ensures ApplyField(q, m, "src=" + q.escape(s)) == m.(source := s)
  {
    var f := "src=" + q.escape(s);
    assert f[0] == 's' && f[4..] == q.escape(s) && f[..4] == "src=";
    PrefixStarts(f, "v");
    PrefixStarts(f, "c");
    NotADate(f);
  }

  lemma ApplyThree(q: Escaping, m: Meta, a: string, b: string, c: string, rest: seq<string>)
    ensures ApplyFields(q, m, [a, b, c] + rest) ==
              ApplyFields(q, ApplyField(q, ApplyField(q, ApplyField(q, m, a), b), c), rest)
  {
    hide ApplyField;
    var fs := [a, b, c] + rest;
    assert fs[1..] == [b, c] + rest;
    var gs := [b, c] + rest;
    assert gs[1..] == [c] + rest;
    var hs := [c] + rest;
    assert hs[1..] == rest;
    assert ApplyFields(q, m, fs) == ApplyFields(q, ApplyField(q, m, a), gs);
    assert ApplyFields(q, ApplyField(q, m, a), gs) == ApplyFields(q, ApplyField(q, ApplyField(q, m, a), b), hs);
  }

  lemma MetaRoundTrip(q: Escaping, e: Entry, now: Instant)
    requires IsEscaping(q)
    ensures ParseMeta(q, MetaText(q, e), Meta(1, 1.0, now, "")) ==
              Meta(e.version, RoundHundredths(e.confidence), Instant(e.updatedAt.date, 0), e.source)
  {
    hide IntText, RealText, DateText, Fields, ApplyField, MetaText, RoundHundredths;
    FieldsOfMeta(q, e);
    var m0 := Meta(1, 1.0, now, "");
    var m1 := m0.(version := e.version);
    var m2 := m1.(confidence := RoundHundredths(e.confidence));
    var m3 := m2.(updatedAt := Instant(e.updatedAt.date, 0));
    VersionField(q, m0, e.version);
    ConfidenceField(q, m1, e.confidence);
    DateField(q, m2, e.updatedAt.date);
    var rest := if e.source != "" then ["src=" + q.escape(e.source)] else [];
    ApplyThree(q, m0, "v" + IntText(e.version), "c" + RealText(e.confidence), DateText(e.updatedAt.date), rest);
    if e.source != "" {
      SourceField(q, m3, e.source);
      assert rest[1..] == [];
    }
  }

  /** The key ends at the first colon and space. */
  lemma KeyEnd(key: string, tail: string)
    requires !Contains(key, ": ")
    ensures Index(key + ": " + tail, ": ") == |key|
  {
    hide Index, HasPrefix;
    var rest := key + ": " + tail;
    PairAt(rest, |key|, ':', ' ');
    assert HasPrefix(rest[|key|..], ": ");
    var i := Index(rest, ": ");
    if i < |key| {
      PairAt(rest, i, ':', ' ');
      PairAt(key, i, ':', ' ');
    }
  }

  lemma OnlyOuterQuotes(value: string, inner: string, i: nat)
    requires '`' !in inner
    ensures var text := value + "  " + ("`" + inner + "`");
            |value| + 2 < i < |text| && text[i] == '`' ==> i == |text| - 1
  {
    var n, text := |value| + 2, value + "  " + ("`" + inner + "`");
    if n < i < |text| - 1 {
      assert text[i] == ("`" + inner + "`")[i - n] == inner[i - n - 1];
    }
  }

  /** The meta text starts at the last backtick followed by v. */
  lemma MetaStart(value: string, inner: string)
    requires '`' !in inner && inner != "" && inner[0] == 'v'
    ensures LastIndex(value + "  " + ("`" + inner + "`"), "`v") == |value| + 2
  {
    hide LastIndex, HasPrefix;
    var n, text := |value| + 2, value + "  " + ("`" + inner + "`");
    assert text[n] == '`' && text[n + 1] == inner[0] && |text| == n + |inner| + 2;
    PairAt(text, n, '`', 'v');
    var i := LastIndex(text, "`v");
    assert i >= n;
    PairAt(text, i, '`', 'v');
    OnlyOuterQuotes(value, inner, i);
  }

  lemma ItemLineIsTrimmed(q: Escaping, e: Entry)
    ensures TrimSpace(ItemLine(q, e)) == ItemLine(q, e)
  {
    hide MetaText, TrimSpace;
    LastIsQuote(q, e);
    var line, m := ItemLine(q, e), MetaText(q, e);
    assert line[0] == '-' && line[|line| - 1] == m[|m| - 1];
    assert !IsSpace('-') && !IsSpace('`');
  }

  lemma LastIsQuote(q: Escaping, e: Entry)
    ensures MetaText(q, e) != "" && MetaText(q, e)[|MetaText(q, e)| - 1] == '`'
  {
  }

  lemma ValueText(q: Escaping, e: Entry)
    requires Plain(e.value)
    ensures var text := e.value + "  " + MetaText(q, e);
            Trimmed(text) && TrimSpace(text) == text && TrimSpace(e.value + "  ") == e.value
  {
    hide MetaText, TrimSpace, IsSpace;
    LastIsQuote(q, e);
    var text, m := e.value + "  " + MetaText(q, e), MetaText(q, e);
    assert text[0] == e.value[0] && text[|text| - 1] == m[|m| - 1];
    SomeSpaces();
    TrimPaddingRight(e.value, "  ");
  }

  lemma SomeSpaces()
    ensures AllSpace("  ") && !IsSpace('`')
  {
  }

  lemma LineIsDashed(q: Escaping, e: Entry)
    ensures var text := e.value + "  " + MetaText(q, e);
            ItemLine(q, e) == "- " + (e.key + ": " + text)
  {
    hide MetaText;
    var text := e.value + "  " + MetaText(q, e);
    assert e.key + ": " + e.value + "  " + MetaText(q, e) == e.key + ": " + text;
    assert "- " + (e.key + ": " + text) == ItemLine(q, e);
  }

  lemma DashedParts(rest: string)
    ensures var line := "- " + rest; HasPrefix(line, "- ") && line[2..] == rest && !HasPrefix(line, "## ")
  {
    PrefixStarts("- " + rest, "## ");
  }

  /** How a line falls apart into key, value and meta text. */
  lemma LineParts(q: Escaping, e: Entry)
    requires IsEscaping(q) && StorableItem(e)
    ensures var meta := MetaText(q, e);
            var text := e.value + "  " + meta;
            var rest := e.key + ": " + text;
            && Index(rest, ": ") == |e.key| && rest[..|e.key|] == e.key && rest[|e.key| + 2..] == text
            && TrimSpace(text) == text && TrimSpace(e.key) == e.key
            && LastIndex(text, "`v") == |e.value| + 2 && text[|e.value| + 2..] == meta
            && TrimSpace(text[..|e.value| + 2]) == e.value
  {
    hide TrimSpace, Index, LastIndex, IsEscaping, Contains, HasPrefix, MetaFields, Trimmed, IsSpace;
    var meta := MetaText(q, e);
    MetaFieldsAreClean(q, e);
    KeyEnd(e.key, e.value + "  " + meta);
    ValueText(q, e);
    MetaStart(e.value, MetaFields(q, e));
    hide MetaText;
    Halves(e.value + "  ", meta);
    Halves(e.key + ": ", e.value + "  " + meta);
  }

  lemma Halves(a: string, b: string)
    ensures (a + b)[..|a|] == a && (a + b)[|a|..] == b
  {
  }

  /** A storable item survives; one with an empty key is dropped. */
  lemma ItemRoundTrip(q: Escaping, e: Entry, section: string, now: Instant)
    requires IsEscaping(q) && StorableItem(e) && section != ""
    ensures TrimSpace(ItemLine(q, e)) == ItemLine(q, e)
    ensures ParseItem(q, now, ItemLine(q, e), section) == if e.key != "" then Some(Kept(e, section)) else None
    ensures !HasPrefix(ItemLine(q, e), "## ")
  {
    hide TrimSpace, Index, LastIndex, ParseMeta, MetaText, IsEscaping, RoundHundredths, HasPrefix, ItemLine, StorableItem;
    ItemLineIsTrimmed(q, e);
    LineIsDashed(q, e);
    DashedParts(e.key + ": " + (e.value + "  " + MetaText(q, e)));
    LineParts(q, e);
    MetaRoundTrip(q, e, now);
  }

  // ---- A section, and the file ----

  function KeptAll(es: seq<Entry>, title: string): (r: seq<Entry>)
    ensures |r| == |es|
  {
    if es == [] then [] else [Kept(es[0], title)] + KeptAll(es[1..], title)
  }

  /** The entries with a key: the others are dropped by the parser. */
  function WithKeys(es: seq<Entry>): (r: seq<Entry>)
    ensures |r| <= |es| && (|r| == |es| ==> r == es && forall i :: 0 <= i < |es| ==> es[i].key != "")
    ensures (forall i :: 0 <= i < |es| ==> es[i].key != "") ==> r == es
  {
    if es == [] then []
    else
      var rest := WithKeys(es[1..]);
      assert forall i :: 1 <= i < |es| ==> es[i] == es[1..][i - 1];
      if es[0].key != "" then [es[0]] + rest else rest
  }

  lemma ItemStep(q: Escaping, now: Instant, line: string, rest: seq<string>, section: string)
    requires Fits(line) && TrimSpace(line) == line && !HasPrefix(line, "## ")
    ensures var item, tail := ParseItem(q, now, line, section), ParseLines(q, now, rest, section);
            ParseLines(q, now, [line] + rest, section) == if item.Some? then After([item.value], tail) else tail
  {
    hide ParseItem, Fits, TrimSpace, HasPrefix;
    assert ([line] + rest)[1..] == rest;
  }

  lemma AfterJoins(a: seq<Entry>, b: seq<Entry>, rest: Parsed)
    ensures After(a, After(b, rest)) == After(a + b, rest) && After([], rest) == rest
  {
    assert a + (b + rest.entries) == a + b + rest.entries;
  }

  lemma KeptStep(e: Entry, es: seq<Entry>, title: string)
    ensures KeptAll([e] + es, title) == [Kept(e, title)] + KeptAll(es, title)
  {
    assert ([e] + es)[1..] == es;
  }

  lemma {:induction false} ItemsParse(q: Escaping, now: Instant, es: seq<Entry>, section: string, rest: seq<string>)
    requires IsEscaping(q) && section != "" && forall i :: 0 <= i < |es| ==> StorableItem(es[i])
    requires AllFit(ItemLines(q, es))
    ensures ParseLines(q, now, ItemLines(q, es) + rest, section) ==
              After(KeptAll(WithKeys(es), section), ParseLines(q, now, rest, section))
  {
    hide StorableItem, ParseItem, ItemLine, TrimSpace, Fits, Kept, IsEscaping, ParseLines, After, HasPrefix;
    AfterJoins([], [], ParseLines(q, now, rest, section));
    if es == [] {
      assert ItemLines(q, es) + rest == rest;
    } else {
      var line, lines := ItemLine(q, es[0]), ItemLines(q, es[1..]);
      assert ItemLines(q, es)[0] == line;
      assert forall i :: 0 <= i < |lines| ==> lines[i] == ItemLines(q, es)[i + 1];
      ItemsParse(q, now, es[1..], section, rest);
      ItemRoundTrip(q, es[0], section, now);
      ItemStep(q, now, line, lines + rest, section);
      assert ItemLines(q, es) + rest == [line] + (lines + rest);
      if es[0].key != "" {
        var ms := WithKeys(es[1..]);
        KeptStep(es[0], ms, section);
        AfterJoins([Kept(es[0], section)], KeptAll(ms, section), ParseLines(q, now, rest, section));
      }
    }
  }

  lemma HeadingParses(title: string)
    requires Plain(title)
    ensures var line := TrimSpace("## " + title);
            HasPrefix(line, "## ") && TrimSpace(line[3..]) == title
  {
    hide TrimSpace;
    var line := "## " + title;
    assert line[|line| - 1] == title[|title| - 1] && line[0] == '#';
    assert line[..3] == "## " && line[3..] == title;
  }

  lemma BlankParses(q: Escaping, now: Instant, section: string)
    ensures Fits("") && TrimSpace("") == "" && !HasPrefix("", "## ") && ParseItem(q, now, "", section).None?
  {
  }

  lemma BlockParses(q: Escaping, now: Instant, title: string, es: seq<Entry>, section: string, rest: seq<string>)
    requires IsEscaping(q) && Plain(title) && forall i :: 0 <= i < |es| ==> StorableItem(es[i])
    requires AllFit(BlockLines(q, title, es))
    ensures ParseLines(q, now, BlockLines(q, title, es) + rest, section) ==
              After(KeptAll(WithKeys(es), title), ParseLines(q, now, rest, title))
  {
    hide StorableItem, ParseItem, TrimSpace, Fits, HasPrefix, KeptAll, ItemLines, IsEscaping, Trimmed, OneLineText;
    var items := ItemLines(q, es);
    var lines := BlockLines(q, title, es) + rest;
    assert lines[0] == BlockLines(q, title, es)[0] == "## " + title;
    assert lines[1..] == items + ([""] + rest);
    assert forall i :: 0 <= i < |items| ==> items[i] == BlockLines(q, title, es)[i + 1];
    HeadingParses(title);
    PrefixLength(TrimSpace("## " + title), "## ");
    ItemsParse(q, now, es, title, [""] + rest);
    BlankParses(q, now, title);
    assert ([""] + rest)[1..] == rest;
  }

  ghost predicate StorableGroup(lower: CaseMap, es: seq<Entry>, k: string) {
    Plain(Title(lower, es, k)) &&
    forall i :: 0 <= i < |Members(lower, es, k)| ==> StorableItem(Members(lower, es, k)[i])
  }

  /** The entries regrouped by section, and those of them that have a key. */
  function Regrouped(lower: CaseMap, es: seq<Entry>, ks: seq<string>): seq<Entry> {
    if ks == [] then []
    else KeptAll(Members(lower, es, ks[0]), Title(lower, es, ks[0])) + Regrouped(lower, es, ks[1..])
  }

  function Survivors(lower: CaseMap, es: seq<Entry>, ks: seq<string>): seq<Entry> {
    if ks == [] then []
    else KeptAll(WithKeys(Members(lower, es, ks[0])), Title(lower, es, ks[0])) + Survivors(lower, es, ks[1..])
  }

  lemma {:induction false} BlocksParse(lower: CaseMap, q: Escaping, now: Instant, es: seq<Entry>, ks: seq<string>,
                                          section: string)
    requires IsEscaping(q) && AllFit(Blocks(lower, q, es, ks))
    requires forall i :: 0 <= i < |ks| ==> StorableGroup(lower, es, ks[i])
    ensures ParseLines(q, now, Blocks(lower, q, es, ks) + [""], section) == Parsed(Survivors(lower, es, ks), true)
  {
    hide StorableItem, Fits, KeptAll, WithKeys, BlockLines, Title, Members, IsEscaping, Plain;
    if ks == [] {
      hide ParseItem, HasPrefix, TrimSpace;
      BlankParses(q, now, section);
      assert Blocks(lower, q, es, ks) + [""] == [""] && [""][1..] == [];
    } else {
      hide ParseLines;
      var title, ms, rest := Title(lower, es, ks[0]), Members(lower, es, ks[0]), Blocks(lower, q, es, ks[1..]);
      var block, all := BlockLines(q, title, ms), Blocks(lower, q, es, ks);
      assert all == block + rest && all + [""] == block + (rest + [""]);
      assert forall i :: 0 <= i < |block| ==> block[i] == all[i];
      assert forall i :: 0 <= i < |rest| ==> rest[i] == all[i + |block|];
      assert StorableGroup(lower, es, ks[0]);
      assert forall i :: 0 <= i < |ks[1..]| ==> ks[1..][i] == ks[i + 1];
      BlockParses(q, now, title, ms, section, rest + [""]);
      BlocksParse(lower, q, now, es, ks[1..], title);
    }
  }

  lemma {:induction false} SurvivorsAreAllIff(lower: CaseMap, es: seq<Entry>, ks: seq<string>)
    ensures |Survivors(lower, es, ks)| <= |Regrouped(lower, es, ks)|
    ensures Survivors(lower, es, ks) == Regrouped(lower, es, ks) <==>
              forall i :: 0 <= i < |ks| ==> WithKeys(Members(lower, es, ks[i])) == Members(lower, es, ks[i])
  {
    hide Members, KeptAll, WithKeys, Title;
    if ks != [] {
      SurvivorsAreAllIff(lower, es, ks[1..]);
      var ms, title := Members(lower, es, ks[0]), Title(lower, es, ks[0]);
      var a, b := KeptAll(WithKeys(ms), title), KeptAll(ms, title);
      assert forall i :: 0 <= i < |ks[1..]| ==> ks[1..][i] == ks[i + 1];
      var s, r := Survivors(lower, es, ks[1..]), Regrouped(lower, es, ks[1..]);
      if a + s == b + r {
        assert |a| == |b|;
        assert s == (a + s)[|a|..] && r == (b + r)[|b|..];
      }
    }
  }

  // ---- Lines of the file ----

  ghost predicate OneLineEach(lines: seq<string>) {
    forall i :: 0 <= i < |lines| ==> OneLineText(lines[i])
  }

  lemma ItemLineIsOneLine(q: Escaping, e: Entry)
    requires IsEscaping(q) && OneLineText(e.key) && OneLineText(e.value)
    ensures OneLineText(ItemLine(q, e))
  {
    hide MetaFields, IsEscaping;
    MetaFieldsAreClean(q, e);
  }

  lemma {:induction false} ItemLinesAreOneLine(q: Escaping, es: seq<Entry>)
    requires IsEscaping(q) && forall i :: 0 <= i < |es| ==> StorableItem(es[i])
    ensures OneLineEach(ItemLines(q, es))
  {
    hide ItemLine, IsEscaping, Trimmed, Contains;
    if es != [] {
      ItemLinesAreOneLine(q, es[1..]);
      ItemLineIsOneLine(q, es[0]);
    }
  }

  lemma {:induction false} BlocksAreOneLine(lower: CaseMap, q: Escaping, es: seq<Entry>, ks: seq<string>)
    requires IsEscaping(q) && forall i :: 0 <= i < |ks| ==> StorableGroup(lower, es, ks[i])
    ensures OneLineEach(Blocks(lower, q, es, ks))
  {
    hide StorableItem, Members, Title, ItemLines, IsEscaping, Trimmed;
    if ks != [] {
      assert StorableGroup(lower, es, ks[0]);
      ItemLinesAreOneLine(q, Members(lower, es, ks[0]));
      assert forall i :: 0 <= i < |ks[1..]| ==> ks[1..][i] == ks[i + 1];
      BlocksAreOneLine(lower, q, es, ks[1..]);
    }
  }

  // ---- What parsing can produce ----

  /** The chars of a trimmed text come from the text. */
  lemma TrimKeepsOneLine(s: string)
    requires OneLineText(s)
    ensures OneLineText(TrimSpace(s))
  {
    hide TrimSpace;
    var front, back := TrimSpaceIsMiddle(s);
    var t := TrimSpace(s);
    assert forall i :: 0 <= i < |t| ==> t[i] == s[|front| + i];
  }

  lemma {:induction false} TrimKeepsWord(s: string)
    requires s != "" && !IsSpace(s[0])
    ensures TrimSpace(s) != "" && TrimSpace(s)[0] == s[0]
  {
    hide IsSpace;
    if IsSpace(s[|s| - 1]) { TrimKeepsWord(s[..|s| - 1]); }
  }

  lemma TrimKeepsAbsence(s: string, sub: string)
    requires !Contains(s, sub)
    ensures !Contains(TrimSpace(s), sub)
  {
    hide TrimSpace;
    var front, back := TrimSpaceIsMiddle(s);
    var t := TrimSpace(s);
    forall i | 0 <= i <= |t| ensures !HasPrefix(t[i..], sub) {
      var j := |front| + i;
      assert !HasPrefix(s[j..], sub);
      if |sub| <= |t[i..]| {
        assert s[j..][..|sub|] == t[i..][..|sub|];
      }
    }
  }

  lemma EmptyHasNoPrefix(sub: string)
    requires sub != ""
    ensures !HasPrefix("", sub)
  {
  }

  lemma BeforeFirst(s: string, sub: string)
    requires Index(s, sub) >= 0 && sub != ""
    ensures !Contains(s[..Index(s, sub)], sub)
  {
    hide Index;
    var n := Index(s, sub);
    var t := s[..n];
    hide HasPrefix;
    forall i | 0 <= i <= |t| ensures !HasPrefix(t[i..], sub) {
      assert i == n ==> t[i..] == "";
      EmptyHasNoPrefix(sub);
      PrefixOfSlice(s, n, i, sub);
    }
  }

  /** Whatever the line, a parsed item has a storable key, a storable value and the
      section it was found under. */
  lemma ParsedItemIsStorable(q: Escaping, now: Instant, line: string, section: string)
    requires Trimmed(line) && OneLineText(line) && ParseItem(q, now, line, section).Some?
    ensures var e := ParseItem(q, now, line, section).value;
            StorableItem(e) && e.section == section && section != ""
  {
    hide TrimSpace, ParseMeta, Index, LastIndex;
    var rest := line[2..];
    var idx := Index(rest, ": ");
    BeforeFirst(rest, ": ");
    TrimKeepsAbsence(rest[..idx], ": ");
    hide Contains;
    TrimKeepsOneLine(rest[..idx]);
    TrimKeepsOneLine(rest[idx + 2..]);
    AfterColon(line, idx);
    var text := TrimSpace(rest[idx + 2..]);
    var at := LastIndex(text, "`v");
    if at > 0 {
      TrimKeepsOneLine(text[..at]);
      TrimKeepsWord(text[..at]);
    }
  }

  lemma AfterColon(line: string, idx: nat)
    requires Trimmed(line) && HasPrefix(line, "- ") && idx <= |line[2..]| && HasPrefix(line[2..][idx..], ": ")
    ensures idx + 2 < |line[2..]| && TrimSpace(line[2..][idx + 2..]) != ""
  {
    var rest := line[2..];
    PairAt(rest, idx, ':', ' ');
    assert rest[|rest| - 1] == line[|line| - 1];
    assert IsSpace(' ');
    var tail := rest[idx + 2..];
    NotAllSpace(tail);
  }

  lemma {:induction false} NotAllSpace(s: string)
    requires s != "" ==> !IsSpace(s[|s| - 1])
    requires s != ""
    ensures TrimSpace(s) != ""
  {
    if IsSpace(s[0]) { NotAllSpace(s[1..]); }
  }

  ghost predicate StorableSection(section: string) {
    section == "" || Plain(section)
  }

  lemma HeadingIsStorable(line: string)
    requires Trimmed(line) && OneLineText(line) && HasPrefix(line, "## ")
    ensures StorableSection(TrimSpace(line[3..]))
  {
    hide TrimSpace;
    TrimKeepsOneLine(line[3..]);
  }

  /** The image of the parser: every entry it reports is storable under a storable
      section. */
  lemma {:induction false} ParsedEntriesAreStorable(q: Escaping, now: Instant, lines: seq<string>, section: string)
    requires OneLineEach(lines) && StorableSection(section)
    ensures forall i :: 0 <= i < |ParseLines(q, now, lines, section).entries| ==>
              var e := ParseLines(q, now, lines, section).entries[i];
              StorableItem(e) && Plain(e.section)
    decreases |lines|
  {
    hide StorableItem, Plain, ParseItem, TrimSpace, HasPrefix, Fits, Trimmed, OneLineText;
    if lines != [] && Fits(lines[0]) {
      var line := TrimSpace(lines[0]);
      TrimKeepsOneLine(lines[0]);
      assert OneLineEach(lines[1..]);
      if HasPrefix(line, "## ") {
        HeadingIsStorable(line);
        PrefixLength(line, "## ");
        ParsedEntriesAreStorable(q, now, lines[1..], TrimSpace(line[3..]));
      } else {
        ParsedEntriesAreStorable(q, now, lines[1..], section);
        if ParseItem(q, now, line, section).Some? {
          ParsedItemIsStorable(q, now, line, section);
        }
      }
    }
  }

  lemma {:induction false} OkMeansAllFit(q: Escaping, now: Instant, lines: seq<string>, section: string)
    requires ParseLines(q, now, lines, section).ok
    ensures AllFit(lines)
    decreases |lines|
  {
    hide ParseItem, TrimSpace, Fits;
    if lines != [] {
      var line := TrimSpace(lines[0]);
      OkMeansAllFit(q, now, lines[1..], if HasPrefix(line, "## ") then TrimSpace(line[3..]) else section);
    }
  }

  // ---- The round trip ----

  /** Every heading and item can be stored, every entry has a key, and every line fits the
      scanner's buffer. */
  ghost predicate Storable(lower: CaseMap, q: Escaping, es: seq<Entry>) {
    && (forall k :: k in Keys(lower, es) ==>
          StorableGroup(lower, es, k) && WithKeys(Members(lower, es, k)) == Members(lower, es, k))
    && AllFit(FileLines(lower, q, es))
  }

  function Regroup(lower: CaseMap, es: seq<Entry>): seq<Entry> {
    Regrouped(lower, es, Keys(lower, es))
  }

  lemma HeaderParses(q: Escaping, now: Instant, rest: seq<string>)
    ensures ParseLines(q, now, ["# Project Memory", ""] + rest, "") == ParseLines(q, now, rest, "")
  {
    var h := "# Project Memory";
    HeaderFits();
    hide Fits, TrimSpace, ParseItem, HasPrefix;
    NoSectionNoItem(q, now, h);
    BlankParses(q, now, "");
    var lines := [h, ""] + rest;
    assert lines[1..] == [""] + rest && lines[1..][1..] == rest;
  }

  lemma NoSectionNoItem(q: Escaping, now: Instant, line: string)
    ensures ParseItem(q, now, line, "").None?
  {
  }

  lemma {:induction false} ShortFits(s: string)
    ensures ByteLen(s) <= 4 * |s|
  {
    if s != "" { ShortFits(s[1..]); }
  }

  lemma HeaderFits()
    ensures var h := "# Project Memory"; Fits(h) && TrimSpace(h) == h && !HasPrefix(h, "## ")
  {
    hide ByteLen, TrimSpace, HasPrefix, Trimmed;
    var h := "# Project Memory";
    ShortFits(h);
    HeaderIsTrimmed();
    if HasPrefix(h, "## ") { HeadingMark(h); }
  }

  lemma HeaderIsTrimmed()
    ensures Trimmed("# Project Memory")
  {
  }

  lemma HeadingMark(s: string)
    requires HasPrefix(s, "## ")
    ensures |s| > 1 && s[1] == '#'
  {
    assert s[..3][1] == s[1];
  }

  /** With all groups storable and all lines fitting, parsing brings back everything that
      has a key. */
  lemma ParseOfFormat(lower: CaseMap, q: Escaping, now: Instant, es: seq<Entry>)
    requires IsEscaping(q)
    requires forall i :: 0 <= i < |Keys(lower, es)| ==> StorableGroup(lower, es, Keys(lower, es)[i])
    ensures Split(Format(lower, q, es), '\n') == FileLines(lower, q, es) + [""]
    ensures AllFit(FileLines(lower, q, es)) ==>
              Parse(q, now, Format(lower, q, es)) == Parsed(Survivors(lower, es, Keys(lower, es)), true)
  {
    hide StorableGroup, Fits, ParseLines, IsEscaping, Split, Unlines, Blocks, Survivors, Keys, OneLineText, After;
    var ks := Keys(lower, es);
    var blocks := Blocks(lower, q, es, ks);
    BlocksAreOneLine(lower, q, es, ks);
    HeaderIsOneLine();
    var lines := ["# Project Memory", ""] + blocks;
    SplitUnlines(lines);
    if AllFit(lines) {
      assert forall i :: 0 <= i < |blocks| ==> blocks[i] == lines[i + 2];
      assert lines + [""] == ["# Project Memory", ""] + (blocks + [""]);
      HeaderParses(q, now, blocks + [""]);
      BlocksParse(lower, q, now, es, ks, "");
    }
  }

  lemma HeaderIsOneLine()
    ensures OneLineText("# Project Memory") && OneLineText("")
  {
  }

  lemma {:induction false} KeptAllIs(es: seq<Entry>, title: string)
    ensures forall i :: 0 <= i < |es| ==> KeptAll(es, title)[i] == Kept(es[i], title)
  {
    if es != [] { KeptAllIs(es[1..], title); }
  }

  /** If the regrouped entries are storable under storable sections, so is each group. */
  lemma {:induction false} GroupsOfRegrouped(lower: CaseMap, es: seq<Entry>, ks: seq<string>, k: string)
    requires k in ks && Members(lower, es, k) != []
    requires forall i :: 0 <= i < |Regrouped(lower, es, ks)| ==>
               StorableItem(Regrouped(lower, es, ks)[i]) && Plain(Regrouped(lower, es, ks)[i].section)
    ensures StorableGroup(lower, es, k)
  {
    hide StorableItem, Plain, Members, Title, KeptAll, RoundHundredths;
    var first, rest := KeptAll(Members(lower, es, ks[0]), Title(lower, es, ks[0])), Regrouped(lower, es, ks[1..]);
    var all := Regrouped(lower, es, ks);
    assert all == first + rest;
    if k == ks[0] {
      var ms, title := Members(lower, es, k), Title(lower, es, k);
      KeptAllIs(ms, title);
      assert all[0] == first[0] == Kept(ms[0], title);
      assert Plain(title) && forall i :: 0 <= i < |ms| ==> StorableItem(ms[i]) by {
        forall i | 0 <= i < |ms| ensures StorableItem(ms[i]) {
          assert all[i] == first[i];
          KeptIsStorable(ms[i], title);
        }
      }
    } else {
      assert forall i :: 0 <= i < |rest| ==> rest[i] == all[i + |first|];
      GroupsOfRegrouped(lower, es, ks[1..], k);
    }
  }

  lemma KeptIsStorable(e: Entry, title: string)
    ensures StorableItem(Kept(e, title)) <==> StorableItem(e)
  {
  }

  /** Parsing what was printed brings the entries back, regrouped by section, with
      confidences rounded to hundredths and times to the day, exactly when they are
      storable. */
  lemma RoundTripIff(lower: CaseMap, q: Escaping, now: Instant, es: seq<Entry>)
    requires IsEscaping(q)
    ensures Parse(q, now, Format(lower, q, es)) == Parsed(Regroup(lower, es), true) <==> Storable(lower, q, es)
  {
    hide StorableGroup, AllFit, Parse, Survivors, Regrouped, Format, IsEscaping, Members, Keys, WithKeys, FileLines;
    var ks := Keys(lower, es);
    SurvivorsAreAllIff(lower, es, ks);
    if Storable(lower, q, es) {
      ParseOfFormat(lower, q, now, es);
    }
    if Parse(q, now, Format(lower, q, es)) == Parsed(Regroup(lower, es), true) {
      ParsedGroupsAreStorable(lower, q, now, es);
      ParseOfFormat(lower, q, now, es);
      FormatFits(lower, q, now, es);
      forall k | k in ks ensures WithKeys(Members(lower, es, k)) == Members(lower, es, k) {
        var i :| 0 <= i < |ks| && ks[i] == k;
      }
    }
  }

  lemma ParsedGroupsAreStorable(lower: CaseMap, q: Escaping, now: Instant, es: seq<Entry>)
    requires Parse(q, now, Format(lower, q, es)).entries == Regroup(lower, es)
    ensures forall k :: k in Keys(lower, es) ==> StorableGroup(lower, es, k)
  {
    hide StorableItem, StorableGroup, Plain, Regrouped, ParseLines, Format, Members, Split;
    var data := Format(lower, q, es);
    SplitPiecesAreClean(data, '\n');
    ParsedEntriesAreStorable(q, now, Split(data, '\n'), "");
    forall k | k in Keys(lower, es) ensures StorableGroup(lower, es, k) {
      KeysAreGroups(lower, es, k);
      GroupsOfRegrouped(lower, es, Keys(lower, es), k);
    }
  }

  lemma FormatFits(lower: CaseMap, q: Escaping, now: Instant, es: seq<Entry>)
    requires Split(Format(lower, q, es), '\n') == FileLines(lower, q, es) + [""]
    requires Parse(q, now, Format(lower, q, es)).ok
    ensures AllFit(FileLines(lower, q, es))
  {
    hide FileLines, Format, Split, ParseLines, Fits;
    var lines := FileLines(lower, q, es);
    OkMeansAllFit(q, now, lines + [""], "");
    assert forall i :: 0 <= i < |lines| ==> lines[i] == (lines + [""])[i];
  }

  // ---- Lines written by hand ----

  /** A line under a heading is an item exactly when it starts with a dash and a blank, and
      a colon and a blank come later, but not at once. */
  lemma ItemIff(q: Escaping, now: Instant, line: string, section: string)
    ensures ParseItem(q, now, line, section).Some? <==>
              section != "" && HasPrefix(line, "- ") && Contains(line[2..], ": ") && !HasPrefix(line[2..], ": ")
  {
    hide TrimSpace, ParseMeta, LastIndex, HasPrefix, Index;
    if HasPrefix(line, "- ") {
      PrefixLength(line, "- ");
      var rest := line[2..];
      IndexIff(rest, ": ");
    }
  }

  lemma IndexIff(s: string, sub: string)
    ensures Index(s, sub) >= 0 <==> Contains(s, sub)
    ensures Index(s, sub) == 0 <==> HasPrefix(s, sub)
  {
    hide Index, HasPrefix;
    assert s[0..] == s;
    var i := Index(s, sub);
  }

  /** An item without meta text has the defaults: version one, full confidence, no source,
      dated to the time of loading. */
  lemma PlainItem(q: Escaping, now: Instant, key: string, text: string, section: string)
    requires section != "" && key != "" && !Contains(key, ": ") && !Contains(text, "`v")
    ensures ParseItem(q, now, "- " + (key + ": " + text), section) ==
              Some(Entry(section, TrimSpace(key), TrimSpace(text), "", 1, 1.0, now))
  {
    DashedParts(key + ": " + text);
    KeyEnd(key, text);
    TrimKeepsAbsence(text, "`v");
    NoLastIndex(TrimSpace(text), "`v");
    hide TrimSpace, ParseMeta, LastIndex, HasPrefix, Index, Contains;
    var rest := key + ": " + text;
    assert rest[..|key|] == key && rest[|key| + 2..] == text;
  }

  lemma NoLastIndex(s: string, sub: string)
    requires !Contains(s, sub)
    ensures LastIndex(s, sub) < 0
  {
    hide LastIndex, HasPrefix;
    var i := LastIndex(s, sub);
  }

  /** Meta fields take effect in order, so a later one of its kind wins. */
  lemma {:induction false} MetaFieldsJoin(q: Escaping, m: Meta, a: seq<string>, b: seq<string>)
    ensures ApplyFields(q, m, a + b) == ApplyFields(q, ApplyFields(q, m, a), b)
    decreases |a|
  {
    hide ApplyField;
    if a == [] {
      assert a + b == b;
    } else {
      assert (a + b)[1..] == a[1..] + b;
      MetaFieldsJoin(q, ApplyField(q, m, a[0]), a[1..], b);
    }
  }

  /** A field that is none of the four changes nothing. */
  lemma UnknownField(q: Escaping, m: Meta, field: string)
    requires !HasPrefix(field, "v") && !HasPrefix(field, "c") && !HasPrefix(field, "src=") && ParseDate(field).None?
    ensures ApplyFields(q, m, [field]) == m
  {
    hide ParseDate, HasPrefix;
    assert [field][1..] == [];
    assert ApplyField(q, m, field) == m;
  }

  /** Neither a heading nor an item under any section. */
  ghost predicate Stray(q: Escaping, now: Instant, line: string) {
    ByteLen(line) < 65536 && !HasPrefix(TrimSpace(line), "## ") && forall section :: ParseItem(q, now, TrimSpace(line), section).None?
  }

  /** Such a line makes no difference, wherever it stands. */
  lemma {:induction false} StrayIsSkipped(q: Escaping, now: Instant, before: seq<string>, line: string, rest: seq<string>,
                                          section: string)
    requires Stray(q, now, line)
    ensures ParseLines(q, now, before + [line] + rest, section) == ParseLines(q, now, before + rest, section)
  {
    hide ParseItem, ByteLen, TrimSpace, HasPrefix;
    if before == [] {
      assert before + [line] + rest == [line] + rest && before + rest == rest;
      assert ([line] + rest)[1..] == rest;
    } else {
      var longer, shorter := before + [line] + rest, before + rest;
      assert longer[1..] == before[1..] + [line] + rest && shorter[1..] == before[1..] + rest;
      assert longer[0] == before[0] == shorter[0];
      var head := TrimSpace(before[0]);
      if HasPrefix(head, "## ") {
        PrefixLength(head, "## ");
        StrayIsSkipped(q, now, before[1..], line, rest, TrimSpace(head[3..]));
      } else {
        StrayIsSkipped(q, now, before[1..], line, rest, section);
      }
    }
  }

  /** What one item looks like in the file. */
  lemma ExampleLine(q: Escaping, section: string, key: string, value: string, clock: nat)
    ensures ItemLine(q, Entry(section, key, value, "", 12, 0.5, Instant(Date(2024, 1, 31), clock))) ==
              "- " + key + ": " + value + "  `v12 c0.50 2024-01-31`"
  {
    var e := Entry(section, key, value, "", 12, 0.5, Instant(Date(2024, 1, 31), clock));
    ExampleMeta(q, e);
    hide MetaText;
  }

  lemma ExampleMeta(q: Escaping, e: Entry)
    requires e.source == "" && e.version == 12 && e.confidence == 0.5 && e.updatedAt.date == Date(2024, 1, 31)
    ensures MetaText(q, e) == "`v12 c0.50 2024-01-31`"
  {
    ExampleNumbers();
    hide IntText, RealText, DateText;
    var text := MetaFields(q, e);
    assert text == "v" + "12" + " " + ("c" + "0.50") + " " + "2024-01-31" + "";
    assert text == "v12 c0.50 2024-01-31";
  }

  lemma ExampleNumbers()
    ensures IntText(12) == "12" && RealText(0.5) == "0.50" && DateText(Date(2024, 1, 31)) == "2024-01-31"
  {
    ExampleDigits();
    ExampleDate();
    hide NatText, PadText;
    assert Hundredths(0.5) == 50;
  }

  lemma ExampleDigits()
    ensures NatText(0) == "0" && NatText(12) == "12" && Pow10(2) == 100 && PadText(50, 2) == "50"
  {
    assert NatText(1) == "1";
    TwoDigits();
    assert PadText(5, 1) == "5";
  }

  lemma ExampleDate()
    ensures DateText(Date(2024, 1, 31)) == "2024-01-31"
  {
    Widths();
    assert Pow10(1) == 10 && Pow10(3) == 1000;
    ExampleYear();
    ExampleDay();
    hide PadText;
  }

  lemma ExampleYear()
    ensures Pow10(4) == 10000 && PadText(2024, 4) == "2024"
  {
    Widths();
    assert Pow10(1) == 10 && Pow10(3) == 1000;
    assert PadText(2, 1) == "2";
    assert PadText(20, 2) == "20";
    assert PadText(202, 3) == "202";
  }

  lemma ExampleDay()
    ensures Pow10(2) == 100 && PadText(1, 2) == "01" && PadText(31, 2) == "31"
  {
    TwoDigits();
    assert PadText(0, 1) == "0";
    assert PadText(3, 1) == "3";
  }

  /** And what a section looks like. */
  lemma ExampleFile(lower: CaseMap, q: Escaping, e: Entry)
    ensures Format(lower, q, [e]) == "# Project Memory\n\n## " + e.section + "\n" + ItemLine(q, e) + "\n\n"
  {
    OneGroup(lower, e);
    hide ItemLine, GroupKey, Keys, Members, Title;
    var k := GroupKey(lower, e);
    assert [k][1..] == [];
    var block := BlockLines(q, e.section, [e]);
    assert Blocks(lower, q, [e], [k]) == block + [];
    assert block + [] == block;
    HeaderText(block);
    OneItemBlock(q, e.section, e);
  }

  lemma OneGroup(lower: CaseMap, e: Entry)
    ensures var k := GroupKey(lower, e);
            Keys(lower, [e]) == [k] && Members(lower, [e], k) == [e] && Title(lower, [e], k) == e.section
  {
    hide GroupKey;
    assert [e][..0] == [];
  }

  lemma OneItemBlock(q: Escaping, title: string, e: Entry)
    ensures Unlines(BlockLines(q, title, [e])) == "## " + title + "\n" + ItemLine(q, e) + "\n\n"
  {
    hide ItemLine;
    var heading, item := "## " + title, ItemLine(q, e);
    assert [e][1..] == [];
    assert ItemLines(q, [e]) == [item] + ItemLines(q, []) && ItemLines(q, []) == [];
    hide ItemLines;
    assert [item] + [] == [item];
    UnlinesJoins([heading] + [item], [""]);
    UnlinesJoins([heading], [item]);
    OneLine(heading);
    OneLine(item);
    OneLine("");
  }
}
