/** Writing the long-term memory to MEMORY.md and loading it back. */
module MarkdownMemory {
  import opened GoStrings
  import opened TextCodec
  import opened LongTermMemory
  import opened Markdown
  import opened MarkdownRoundTrip

  /** How instants of the memory's clock relate to dates and times of day. */
  datatype Calendar = Calendar(at: int -> Instant, back: Instant -> int)

  function Versions(items: seq<Item>): (r: bool) {
    forall i :: 0 <= i < |items| ==> MIN_INT <= items[i].version <= MAX_INT
  }

  function ToEntry(cal: Calendar, f: Item): Entry
    requires MIN_INT <= f.version <= MAX_INT
  {
    Entry(f.section, f.key, f.value, f.source, f.version, f.confidence, cal.at(f.updatedAt))
  }

  function ToItem(cal: Calendar, e: Entry): Item {
    Item(e.section, e.key, e.value, e.source, e.version, e.confidence, cal.back(e.updatedAt))
  }

  function ToEntries(cal: Calendar, items: seq<Item>): seq<Entry>
    requires Versions(items)
  {
    seq(|items|, i requires 0 <= i < |items| => ToEntry(cal, items[i]))
  }

  function ToItems(cal: Calendar, es: seq<Entry>): seq<Item> {
    seq(|es|, i requires 0 <= i < |es| => ToItem(cal, es[i]))
  }

  method Write(memory: Memory, cal: Calendar, q: Escaping) returns (data: string)
    requires Versions(memory.items)
    ensures data == Format(memory.g.lower, q, ToEntries(cal, memory.items))
  {
    var entries: seq<Entry> := [];
    for i := 0 to |memory.items|
      invariant |entries| == i && forall j :: 0 <= j < i ==> entries[j] == ToEntry(cal, memory.items[j])
    {
      entries := entries + [ToEntry(cal, memory.items[i])];
    }
    assert entries == ToEntries(cal, memory.items);
    data := FormatMarkdown(memory.g.lower, q, entries);
  }

  method Load(g: Setting, cal: Calendar, q: Escaping, now: Instant, data: string) returns (memory: Memory, ok: bool)
    ensures fresh(memory) && memory.g == g
    ensures ok == Parse(q, now, data).ok
    ensures ok ==> memory.items == ToItems(cal, Parse(q, now, data).entries)
    ensures IndexesLast(g, memory.items, memory.index)
    ensures memory.Valid() <==> DistinctKeys(g, memory.items)
  {
    var entries;
    entries, ok := ParseMarkdown(q, now, data);
    var items: seq<Item> := [];
    if ok {
      for i := 0 to |entries|
        invariant |items| == i && forall j :: 0 <= j < i ==> items[j] == ToItem(cal, entries[j])
      {
        items := items + [ToItem(cal, entries[i])];
      }
      assert items == ToItems(cal, entries);
    }
    memory := new Memory(g, items);
  }

  // ---- Regrouping is a permutation ----

  lemma {:induction false} MembersAre(lower: CaseMap, es: seq<Entry>, k: string, e: Entry)
    ensures e in Members(lower, es, k) <==> e in es && GroupKey(lower, e) == k
  {
    hide GroupKey;
    if es != [] {
      var front := es[..|es| - 1];
      MembersAre(lower, front, k, e);
      assert es == front + [es[|es| - 1]];
    }
  }

  lemma {:induction false} KeptAllHolds(es: seq<Entry>, title: string, x: Entry)
    ensures x in KeptAll(es, title) <==> exists e :: e in es && x == Kept(e, title)
  {
    hide Kept;
    KeptAllIs(es, title);
    var r := KeptAll(es, title);
    if x in r {
      var i :| 0 <= i < |r| && r[i] == x;
      assert es[i] in es;
    }
    if e :| e in es && x == Kept(e, title) {
      var i :| 0 <= i < |es| && es[i] == e;
      assert r[i] == x;
    }
  }

  /** What the regrouped list holds: every entry of the groups, under its group's title. */
  lemma {:induction false} RegroupedHolds(lower: CaseMap, es: seq<Entry>, ks: seq<string>, x: Entry)
    ensures x in Regrouped(lower, es, ks) <==>
              exists e :: e in es && GroupKey(lower, e) in ks && x == Kept(e, Title(lower, es, GroupKey(lower, e)))
  {
    hide Kept, GroupKey, Title, KeptAll, Members;
    if ks != [] {
      var ms, title := Members(lower, es, ks[0]), Title(lower, es, ks[0]);
      RegroupedHolds(lower, es, ks[1..], x);
      KeptAllHolds(ms, title, x);
      forall e ensures e in ms <==> e in es && GroupKey(lower, e) == ks[0] {
        MembersAre(lower, es, ks[0], e);
      }
      assert ks == [ks[0]] + ks[1..];
      assert x in Regrouped(lower, es, ks) <==> x in KeptAll(ms, title) || x in Regrouped(lower, es, ks[1..]);
    }
  }

  predicate Distinct(ks: seq<string>) {
    forall i, j :: 0 <= i < j < |ks| ==> ks[i] != ks[j]
  }

  lemma {:induction false} KeysAreDistinct(lower: CaseMap, es: seq<Entry>)
    ensures Distinct(Keys(lower, es))
    ensures forall e :: e in es ==> GroupKey(lower, e) in Keys(lower, es)
  {
    hide GroupKey;
    if es != [] {
      var front := es[..|es| - 1];
      assert es == front + [es[|es| - 1]];
      KeysAreDistinct(lower, front);
    }
  }

  function Total(lower: CaseMap, es: seq<Entry>, ks: seq<string>): nat {
    if ks == [] then 0 else |Members(lower, es, ks[0])| + Total(lower, es, ks[1..])
  }

  lemma {:induction false} TotalIsLength(lower: CaseMap, es: seq<Entry>, ks: seq<string>)
    ensures |Regrouped(lower, es, ks)| == Total(lower, es, ks)
  {
    hide Members, Title;
    if ks != [] { TotalIsLength(lower, es, ks[1..]); }
  }

  lemma {:induction false} TotalGrows(lower: CaseMap, es: seq<Entry>, e: Entry, ks: seq<string>)
    requires Distinct(ks)
    ensures Total(lower, es + [e], ks) == Total(lower, es, ks) + if GroupKey(lower, e) in ks then 1 else 0
  {
    hide GroupKey;
    if ks != [] {
      assert (es + [e])[..|es|] == es;
      assert ks == [ks[0]] + ks[1..];
      TotalGrows(lower, es, e, ks[1..]);
    }
  }

  lemma {:induction false} TotalExtends(lower: CaseMap, es: seq<Entry>, ks: seq<string>, k: string)
    ensures Total(lower, es, ks + [k]) == Total(lower, es, ks) + |Members(lower, es, k)|
  {
    hide Members;
    if ks == [] {
      assert [k][1..] == [];
    } else {
      assert (ks + [k])[1..] == ks[1..] + [k];
      TotalExtends(lower, es, ks[1..], k);
    }
  }

  lemma {:induction false} EveryEntryIsGrouped(lower: CaseMap, es: seq<Entry>)
    ensures Total(lower, es, Keys(lower, es)) == |es|
  {
    hide GroupKey, Total, Members;
    if es == [] {
      assert Total(lower, [], []) == 0 by { NothingTotal(lower); }
    } else {
      var front, e := es[..|es| - 1], es[|es| - 1];
      var ks, k := Keys(lower, front), GroupKey(lower, e);
      EveryEntryIsGrouped(lower, front);
      KeysAreDistinct(lower, front);
      KeysAreDistinct(lower, es);
      assert es == front + [e];
      TotalGrows(lower, front, e, Keys(lower, es));
      if k !in ks {
        TotalExtends(lower, front, ks, k);
        KeysAreGroups(lower, front, k);
      }
    }
  }

  lemma NothingTotal(lower: CaseMap)
    ensures Total(lower, [], []) == 0
  {
  }

  /** A title is a spelling of its group's key. */
  lemma TitleSpellsKey(lower: CaseMap, es: seq<Entry>, k: string)
    requires Members(lower, es, k) != []
    ensures Normalize(lower, Title(lower, es, k)) == k
  {
    hide Members, Normalize;
    MembersAre(lower, es, k, Members(lower, es, k)[0]);
  }

  // ---- No key is lost or doubled ----

  function KeysOf(g: Setting, items: seq<Item>): (ks: seq<string>)
    ensures |ks| == |items|
  {
    seq(|items|, i requires 0 <= i < |items| => KeyOf(g, items[i]))
  }

  ghost function ToSet(ks: seq<string>): set<string> {
    set k | k in ks
  }

  lemma {:induction false} DistinctCounts(ks: seq<string>)
    ensures |ToSet(ks)| <= |ks| && (|ToSet(ks)| == |ks| <==> Distinct(ks))
  {
    if ks != [] {
      var front, k := ks[..|ks| - 1], ks[|ks| - 1];
      DistinctCounts(front);
      assert ks == front + [k];
      assert ToSet(ks) == ToSet(front) + {k};
      if k in front {
        assert ToSet(ks) == ToSet(front);
        var i :| 0 <= i < |front| && front[i] == k;
        assert ks[i] == ks[|ks| - 1];
      } else {
        forall i, j | 0 <= i < j < |front| ensures ks[i] == front[i] && ks[j] == front[j] {}
      }
    }
  }

  /** The calendar puts the instant of a day on that day. */
  ghost predicate KeepsDays(cal: Calendar) {
    forall d :: cal.at(cal.back(d)).date == d.date
  }

  /** x is what is left of f: the section may be spelled otherwise, the confidence is rounded
      and the update is moved to the start of its day. */
  ghost predicate ComesFrom(g: Setting, cal: Calendar, x: Item, f: Item) {
    && x.updatedAt == cal.back(Instant(cal.at(f.updatedAt).date, 0))
    && KeyOf(g, x) == KeyOf(g, f) && x.key == f.key
    && x.value == f.value && x.version == f.version && x.source == f.source
    && x.confidence == RoundHundredths(f.confidence)
  }

  /** Every loaded item comes from a written one, and every written one is loaded. */
  lemma LoadedAreWritten(g: Setting, cal: Calendar, items: seq<Item>, i: nat) returns (j: nat)
    requires Versions(items)
    requires i < |Regroup(g.lower, ToEntries(cal, items))|
    ensures j < |items| && ComesFrom(g, cal, ToItem(cal, Regroup(g.lower, ToEntries(cal, items))[i]), items[j])
  {
    hide Regrouped, Title, Keys, Normalize, Members, RoundHundredths;
    var es := ToEntries(cal, items);
    var x := Regroup(g.lower, es)[i];
    RegroupedHolds(g.lower, es, Keys(g.lower, es), x);
    var e :| e in es && GroupKey(g.lower, e) in Keys(g.lower, es) && x == Kept(e, Title(g.lower, es, GroupKey(g.lower, e)));
    j :| 0 <= j < |es| && es[j] == e;
    KeysAreGroups(g.lower, es, GroupKey(g.lower, e));
    TitleSpellsKey(g.lower, es, GroupKey(g.lower, e));
    assert ComesFrom(g, cal, ToItem(cal, x), items[j]);
  }

  lemma WrittenAreLoaded(g: Setting, cal: Calendar, items: seq<Item>, j: nat) returns (i: nat)
    requires Versions(items) && j < |items|
    ensures var r := Regroup(g.lower, ToEntries(cal, items));
            i < |r| && ComesFrom(g, cal, ToItem(cal, r[i]), items[j])
  {
    hide Regrouped, Title, Keys, Normalize, Members, RoundHundredths;
    var es := ToEntries(cal, items);
    var e := es[j];
    var k := GroupKey(g.lower, e);
    var x := Kept(e, Title(g.lower, es, k));
    var r := Regroup(g.lower, es);
    assert e in es;
    KeysAreDistinct(g.lower, es);
    RegroupedHolds(g.lower, es, Keys(g.lower, es), x);
    i :| 0 <= i < |r| && r[i] == x;
    KeysAreGroups(g.lower, es, k);
    TitleSpellsKey(g.lower, es, k);
    assert ComesFrom(g, cal, ToItem(cal, r[i]), items[j]);
  }

  lemma ReloadKeepsKeys(g: Setting, cal: Calendar, items: seq<Item>)
    requires Versions(items) && DistinctKeys(g, items)
    ensures DistinctKeys(g, ToItems(cal, Regroup(g.lower, ToEntries(cal, items))))
    ensures |Regroup(g.lower, ToEntries(cal, items))| == |items|
  {
    hide Regroup, Total, Keys, IndexKey, ToEntries;
    var es := ToEntries(cal, items);
    SameLength(cal, items);
    var r := ToItems(cal, Regroup(g.lower, es));
    RegroupKeepsLength(g.lower, es);
    var a, b := KeysOf(g, r), KeysOf(g, items);
    forall k ensures k in a <==> k in b {
      if i :| 0 <= i < |a| && a[i] == k {
        var j := LoadedAreWritten(g, cal, items, i);
        assert b[j] == k;
      }
      if j :| 0 <= j < |b| && b[j] == k {
        var i := WrittenAreLoaded(g, cal, items, j);
        assert a[i] == k;
      }
    }
    assert ToSet(a) == ToSet(b);
    DistinctCounts(a);
    DistinctCounts(b);
    assert Distinct(b);
    assert Distinct(a);
    forall i, j | 0 <= i < j < |r| ensures KeyOf(g, r[i]) != KeyOf(g, r[j]) {
      assert a[i] == KeyOf(g, r[i]) && a[j] == KeyOf(g, r[j]);
    }
  }

  lemma SameLength(cal: Calendar, items: seq<Item>)
    requires Versions(items)
    ensures |ToEntries(cal, items)| == |items|
  {
  }

  lemma RegroupKeepsLength(lower: CaseMap, es: seq<Entry>)
    ensures |Regroup(lower, es)| == |es|
  {
    TotalIsLength(lower, es, Keys(lower, es));
    EveryEntryIsGrouped(lower, es);
  }

  /** Write, then load: when the entries are storable, loading succeeds, the rebuilt index
      is sound, and a section and key is found in the new memory exactly when it was found
      in the old one, with the same value, version, source and day and the rounded confidence. */
  lemma WriteThenLoad(g: Setting, cal: Calendar, q: Escaping, now: Instant,
                      items: seq<Item>, index: map<string, nat>, loaded: seq<Item>, index': map<string, nat>)
    requires IsEscaping(q) && Versions(items) && IndexFits(g, items, index)
    requires Storable(g.lower, q, ToEntries(cal, items))
    requires loaded == ToItems(cal, Parse(q, now, Format(g.lower, q, ToEntries(cal, items))).entries)
    requires IndexesLast(g, loaded, index')
    ensures Parse(q, now, Format(g.lower, q, ToEntries(cal, items))).ok
    ensures IndexFits(g, loaded, index')
    ensures forall k :: k in index' <==> k in index
    ensures forall k :: k in index ==> ComesFrom(g, cal, loaded[index'[k]], items[index[k]])
    ensures KeepsDays(cal) ==>
              forall k :: k in index ==> cal.at(loaded[index'[k]].updatedAt).date == cal.at(items[index[k]].updatedAt).date
  {
    hide Storable, Parse, Format, Regroup, ToEntries, IndexKey, IsEscaping, RoundHundredths;
    var es := ToEntries(cal, items);
    RoundTripIff(g.lower, q, now, es);
    FitsMeansDistinct(g, items, index);
    ReloadKeepsKeys(g, cal, items);
    DistinctFits(g, loaded, index');
    forall k | k in index' ensures k in index && ComesFrom(g, cal, loaded[index'[k]], items[index[k]]) {
      var j := LoadedAreWritten(g, cal, items, index'[k]);
    }
    forall k | k in index ensures k in index' {
      var i := WrittenAreLoaded(g, cal, items, index[k]);
      assert KeyOf(g, loaded[i]) == k;
    }
  }
}
