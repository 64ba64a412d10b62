/** The long-term memory: a slice of items with an index from normalised section and key
    to slice position, kept in step through upserts, bulk writes and swap-removal. */
module LongTermMemory {
  import opened GoStrings
  import opened Options

  /** One remembered fact. Times are instants on an abstract clock. */
  datatype Item = Item(section: string, key: string, value: string, source: string,
                       version: int, confidence: real, updatedAt: int)

  ghost predicate IsDecay(pow: int -> real) {
    forall age :: age > 0 ==> 0.0 < pow(age) <= 1.0
  }

  /** How much of a confidence is left after a span of time. */
  type Decay = f: int -> real | IsDecay(f) witness (age: int) => 1.0

  /** The case mapping, the decay and the optional semantic judge a memory works with. */
  datatype Setting = Setting(lower: CaseMap, pow: Decay, judge: Option<(string, string) -> bool>)

  function Max(a: real, b: real): real { if a >= b then a else b }

  function Min(a: real, b: real): real { if a <= b then a else b }

  function IndexKey(g: Setting, section: string, key: string): string {
    Normalize(g.lower, section) + ['\0'] + key
  }

  function KeyOf(g: Setting, item: Item): string {
    IndexKey(g, item.section, item.key)
  }

  function Faded(confidence: real, left: real): real { confidence * left }

  function Decayed(g: Setting, item: Item, now: int): Item {
    if item.confidence <= 0.0 || now - item.updatedAt <= 0 then item
    else item.(confidence := Max(0.1, Faded(item.confidence, g.pow(now - item.updatedAt))))
  }

  predicate SemanticMatch(g: Setting, a: string, b: string) {
    var la, lb := Normalize(g.lower, a), Normalize(g.lower, b);
    a == b || la == lb || Contains(la, lb) || Contains(lb, la) || (g.judge.Some? && g.judge.value(la, lb))
  }

  /** Two values say the same when, trimmed and in lower case, one is part of the other, or
      when the judge says so. */
  lemma MatchesIff(g: Setting, a: string, b: string)
    ensures var la, lb := Normalize(g.lower, a), Normalize(g.lower, b);
            SemanticMatch(g, a, b) <==>
              || (exists front, back :: la == front + lb + back)
              || (exists front, back :: lb == front + la + back)
              || (g.judge.Some? && g.judge.value(la, lb))
  {
    hide Normalize, Contains;
    var la, lb := Normalize(g.lower, a), Normalize(g.lower, b);
    ContainsIff(la, lb);
    ContainsIff(lb, la);
    if la == lb { assert la == "" + lb + ""; }
  }

  // ---- When two pairs share a key ----

  /** Sections and keys are told apart by their index key exactly when the parts do not
      trade a NUL character between them. */
  lemma {:induction false} KeysCollideIff(g: Setting, s: string, k: string, t: string, l: string)
    ensures IndexKey(g, s, k) == IndexKey(g, t, l) <==>
              var n, m := Normalize(g.lower, s), Normalize(g.lower, t);
              || (n == m && k == l)
              || (exists x :: m == n + ['\0'] + x && k == x + ['\0'] + l)
              || (exists x :: n == m + ['\0'] + x && l == x + ['\0'] + k)
  {
    hide Normalize;
    var n, m := Normalize(g.lower, s), Normalize(g.lower, t);
    if IndexKey(g, s, k) == IndexKey(g, t, l) {
      if |n| == |m| {
        Parts(n, k, m, l);
      } else if |n| < |m| {
        var x := ShorterSection(n, k, m, l);
      } else {
        var x := ShorterSection(m, l, n, k);
      }
    } else {
      forall x ensures !(m == n + ['\0'] + x && k == x + ['\0'] + l) {
        assert n + ['\0'] + (x + ['\0'] + l) == (n + ['\0'] + x) + ['\0'] + l;
      }
      forall x ensures !(n == m + ['\0'] + x && l == x + ['\0'] + k) {
        assert m + ['\0'] + (x + ['\0'] + k) == (m + ['\0'] + x) + ['\0'] + k;
      }
    }
  }

  lemma Parts(n: string, k: string, m: string, l: string)
    requires |n| == |m| && n + ['\0'] + k == m + ['\0'] + l
    ensures n == m && k == l
  {
    var a := n + ['\0'] + k;
    assert n == a[..|n|] && m == a[..|n|];
    assert k == a[|n| + 1..] && l == a[|n| + 1..];
  }

  lemma ShorterSection(n: string, k: string, m: string, l: string) returns (x: string)
    requires |n| < |m| && n + ['\0'] + k == m + ['\0'] + l
    ensures m == n + ['\0'] + x && k == x + ['\0'] + l
  {
    var a := n + ['\0'] + k;
    x := m[|n| + 1..];
    assert m == a[..|m|] && k == a[|n| + 1..];
    assert a[|n|] == '\0' && a[|m|] == '\0';
    assert m[|n|] == a[|n|];
    assert k == a[|n| + 1..|m|] + a[|m|..];
    assert a[|m|..] == ['\0'] + l;
  }

  /** In particular sections free of NUL never collide. */
  lemma PlainSectionsNeverCollide(g: Setting, s: string, k: string, t: string, l: string)
    requires '\0' !in Normalize(g.lower, s) && '\0' !in Normalize(g.lower, t)
    requires IndexKey(g, s, k) == IndexKey(g, t, l)
    ensures Normalize(g.lower, s) == Normalize(g.lower, t) && k == l
  {
    KeysCollideIff(g, s, k, t, l);
    hide Normalize;
    var n, m := Normalize(g.lower, s), Normalize(g.lower, t);
    forall x ensures m != n + ['\0'] + x && n != m + ['\0'] + x {
      assert (n + ['\0'] + x)[|n|] == '\0' && (m + ['\0'] + x)[|m|] == '\0';
    }
  }

  // ---- The memory as a map ----

  type Facts = map<string, Item>

  datatype StoreOutcome = StoreOutcome(facts: Facts, winner: Item, conflict: Option<Item>)

  /** Storing a value for a section and key. */
  function Stored(g: Setting, m: Facts, section: string, key: string, value: string, now: int): StoreOutcome {
    var s := Normalize(g.lower, section);
    var k := IndexKey(g, section, key);
    var newFact := Item(s, key, value, "", 1, 1.0, now);
    if k !in m then StoreOutcome(m[k := newFact], newFact, None)
    else
      var existing := m[k];
      var left := Decayed(g, existing, now).confidence;
      if SemanticMatch(g, existing.value, value) then
        var kept := existing.(value := value, confidence := Min(1.0, Max(left, 1.0) + 0.1),
                          updatedAt := now, version := existing.version + 1);
        StoreOutcome(m[k := kept], kept, None)
      else if 1.0 > left then
        var won := newFact.(version := existing.version + 1);
        StoreOutcome(m[k := won], won, Some(existing))
      else StoreOutcome(m, existing, Some(newFact.(version := existing.version + 1, updatedAt := 0)))
  }

  /** One item of a bulk write. */
  function Written(g: Setting, m: Facts, item: Item, now: int): Facts {
    var k := KeyOf(g, item);
    var stamped := item.(updatedAt := now, section := Normalize(g.lower, item.section));
    m[k := if k in m then stamped.(version := m[k].version + 1) else stamped]
  }

  function BulkWritten(g: Setting, m: Facts, items: seq<Item>, now: int): Facts {
    if items == [] then m
    else Written(g, BulkWritten(g, m, items[..|items| - 1], now), items[|items| - 1], now)
  }

  // ---- The implementation ----

  class Memory {
    const g: Setting
    var items: seq<Item>
    var index: map<string, nat>

    /** The index is a bijection between keys and slice positions. */
    ghost predicate Valid()
      reads this
    {
      IndexFits(g, items, index)
    }

    /** The memory as a map from index key to item. */
    ghost function Abs(): Facts
      reads this
      requires Valid()
    {
      map k | k in index :: items[index[k]]
    }

    /** Loads the items of the file. */
    constructor (g: Setting, loaded: seq<Item>)
      ensures this.g == g && items == loaded
      ensures Valid() <==> DistinctKeys(g, loaded)
      ensures IndexesLast(g, loaded, index)
    {
      this.g := g;
      items, index := loaded, map[];
      new;
      RebuildIndex();
      if Valid() { FitsMeansDistinct(g, items, index); }
      if DistinctKeys(g, items) { DistinctFits(g, items, index); }
    }

    method RebuildIndex()
      modifies this`index
      ensures IndexesLast(g, items, index)
    {
      index := map[];
      hide IndexesLast;
      NothingIndexed(g);
      for i := 0 to |items|
        invariant IndexesLast(g, items[..i], index)
      {
        IndexesOneMore(g, items[..i], index, items[i]);
        assert items[..i + 1] == items[..i] + [items[i]];
        index := index[KeyOf(g, items[i]) := i];
      }
      assert items[..|items|] == items;
    }

    method Get(section: string, key: string, now: int) returns (r: Option<Item>)
      requires Valid()
      ensures var k := IndexKey(g, section, key);
              r == if k in Abs() then Some(Decayed(g, Abs()[k], now)) else None
      ensures r.Some? <==> IndexKey(g, section, key) in Abs()
      ensures r.Some? ==>
                var f := Abs()[IndexKey(g, section, key)];
                var age := now - f.updatedAt;
                r.value == f.(confidence := if f.confidence <= 0.0 || age <= 0 then f.confidence
                                            else if f.confidence * g.pow(age) <= 0.1 then 0.1
                                            else f.confidence * g.pow(age))
    {
      hide IndexKey;
      var k := IndexKey(g, section, key);
      if k in index { return Some(Decayed(g, items[index[k]], now)); }
      return None;
    }

    method Store(section: string, key: string, value: string, now: int) returns (winner: Item, conflict: Option<Item>)
      requires Valid()
      modifies this`items, this`index
      ensures Valid()
      ensures Stored(g, old(Abs()), section, key, value, now) == StoreOutcome(Abs(), winner, conflict)
    {
      hide Normalize, SemanticMatch, Decayed, HoldsFirm, Stored, IndexFits;
      NormalizeIsIdempotent(g.lower, section);
      StoredItemIs(g, Abs(), section, key, value, now);
      ValidIs(g, items, index);
      var s := Normalize(g.lower, section);
      var k := IndexKey(g, s, key);
      var newFact := Item(s, key, value, "", 1, 1.0, now);
      if k !in index {
        Appends(g, items, index, newFact);
        index := index[k := |items|];
        items := items + [newFact];
        return newFact, None;
      }
      var cur := index[k];
      var existing := items[cur];
      var decayed := Decayed(g, existing, now);
      FirmIff(g, existing, now);
      if SemanticMatch(g, existing.value, value) {
        existing := existing.(value := value, confidence := Min(1.0, Max(decayed.confidence, newFact.confidence) + 0.1));
        existing := existing.(updatedAt := now, version := existing.version + 1);
        Replaces(g, items, index, cur, existing);
        items := items[cur := existing];
        return existing, None;
      } else if newFact.confidence > decayed.confidence {
        newFact := newFact.(version := existing.version + 1);
        Replaces(g, items, index, cur, newFact);
        items := items[cur := newFact];
        return newFact, Some(existing);
      } else {
        return existing, Some(Item(s, key, value, "", existing.version + 1, 1.0, 0));
      }
    }

    method BulkStore(batch: seq<Item>, now: int)
      requires Valid()
      modifies this`items, this`index
      ensures Valid() && Abs() == BulkWritten(g, old(Abs()), batch, now)
    {
      for i := 0 to |batch|
        invariant Valid() && Abs() == BulkWritten(g, old(Abs()), batch[..i], now)
      {
        assert batch[..i + 1][..i] == batch[..i];
        StoreOne(batch[i], now);
      }
      assert batch[..|batch|] == batch;
    }

    method StoreOne(item: Item, now: int)
      requires Valid()
      modifies this`items, this`index
      ensures Valid() && Abs() == Written(g, old(Abs()), item, now)
    {
      NormalizeIsIdempotent(g.lower, item.section);
      hide Normalize;
      var newFact := item.(updatedAt := now, section := Normalize(g.lower, item.section));
      var k := IndexKey(g, newFact.section, newFact.key);
      if k in index {
        var cur := index[k];
        newFact := newFact.(version := items[cur].version + 1);
        Replaces(g, items, index, cur, newFact);
        items := items[cur := newFact];
      } else {
        Appends(g, items, index, newFact);
        index := index[k := |items|];
        items := items + [newFact];
      }
    }

    /** Swap-removal: the last item takes the removed one's place. */
    method Remove(section: string, key: string)
      requires Valid()
      modifies this`items, this`index
      ensures Valid() && Abs() == old(Abs()) - {IndexKey(g, section, key)}
    {
      hide IndexKey;
      var k := IndexKey(g, section, key);
      if k !in index { return; }
      var idx, lastIdx := index[k], |items| - 1;
      SwapRemoves(g, items, index, k);
      if idx != lastIdx {
        items := items[idx := items[lastIdx]];
        index := index[KeyOf(g, items[idx]) := idx];
      }
      items := items[..lastIdx];
      index := index - {k};
    }
  }

  // ---- Positions and keys ----

  ghost predicate IndexFits(g: Setting, items: seq<Item>, index: map<string, nat>) {
    && (forall k :: k in index ==> index[k] < |items| && KeyOf(g, items[index[k]]) == k)
    && (forall i :: 0 <= i < |items| ==> KeyOf(g, items[i]) in index && index[KeyOf(g, items[i])] == i)
  }

  lemma ValidIs(g: Setting, items: seq<Item>, index: map<string, nat>)
    requires IndexFits(g, items, index)
    ensures forall k :: k in index ==> index[k] < |items| && KeyOf(g, items[index[k]]) == k
  {
  }

  ghost predicate DistinctKeys(g: Setting, items: seq<Item>) {
    forall i, j :: 0 <= i < j < |items| ==> KeyOf(g, items[i]) != KeyOf(g, items[j])
  }

  ghost predicate IsLastWithKey(g: Setting, items: seq<Item>, k: string, i: nat) {
    i < |items| && KeyOf(g, items[i]) == k && forall j :: i < j < |items| ==> KeyOf(g, items[j]) != k
  }

  /** Every key of the items is indexed, at its last occurrence. */
  ghost predicate IndexesLast(g: Setting, items: seq<Item>, index: map<string, nat>) {
    && (forall i :: 0 <= i < |items| ==> KeyOf(g, items[i]) in index)
    && (forall k :: k in index ==> IsLastWithKey(g, items, k, index[k]))
  }

  lemma NothingIndexed(g: Setting)
    ensures IndexesLast(g, [], map[])
  {
  }

  lemma IndexesOneMore(g: Setting, items: seq<Item>, index: map<string, nat>, item: Item)
    requires IndexesLast(g, items, index)
    ensures IndexesLast(g, items + [item], index[KeyOf(g, item) := |items|])
  {
    hide IndexKey;
  }

  lemma FitsMeansDistinct(g: Setting, items: seq<Item>, index: map<string, nat>)
    requires IndexFits(g, items, index)
    ensures DistinctKeys(g, items)
  {
    hide IndexKey;
  }

  lemma DistinctFits(g: Setting, items: seq<Item>, index: map<string, nat>)
    requires DistinctKeys(g, items)
    requires IndexesLast(g, items, index)
    ensures IndexFits(g, items, index)
  {
    hide IndexKey;
  }

  ghost function AsMap(items: seq<Item>, index: map<string, nat>): Facts
    requires forall k :: k in index ==> index[k] < |items|
  {
    map k | k in index :: items[index[k]]
  }

  lemma Appends(g: Setting, items: seq<Item>, index: map<string, nat>, item: Item)
    requires IndexFits(g, items, index) && KeyOf(g, item) !in index
    ensures var k := KeyOf(g, item);
            && IndexFits(g, items + [item], index[k := |items|])
            && AsMap(items + [item], index[k := |items|]) == AsMap(items, index)[k := item]
  {
    hide IndexKey;
  }

  lemma Replaces(g: Setting, items: seq<Item>, index: map<string, nat>, i: nat, item: Item)
    requires IndexFits(g, items, index) && i < |items| && KeyOf(g, item) == KeyOf(g, items[i])
    ensures IndexFits(g, items[i := item], index)
    ensures AsMap(items[i := item], index) == AsMap(items, index)[KeyOf(g, item) := item]
  {
    hide IndexKey;
  }

  /** The list with its last item in the place of item i, and that item indexed there. */
  function SwappedOut(g: Setting, items: seq<Item>, index: map<string, nat>, i: nat): (seq<Item>, map<string, nat>)
    requires i < |items|
  {
    var last := |items| - 1;
    (items[i := items[last]][..last], if i != last then index[KeyOf(g, items[last]) := i] else index)
  }

  lemma SwapRemoves(g: Setting, items: seq<Item>, index: map<string, nat>, k: string)
    requires IndexFits(g, items, index) && k in index
    ensures index[k] < |items|
    ensures var (items', index') := SwappedOut(g, items, index, index[k]);
            IndexFits(g, items', index' - {k}) && AsMap(items', index' - {k}) == AsMap(items, index) - {k}
  {
    hide IndexKey;
  }

  // ---- Get is a linear search ----

  /** The first item stored under this section and key, if any. */
  function Search(g: Setting, items: seq<Item>, section: string, key: string): Option<Item> {
    if items == [] then None
    else if Normalize(g.lower, items[0].section) == Normalize(g.lower, section) && items[0].key == key then Some(items[0])
    else Search(g, items[1..], section, key)
  }

  lemma {:induction false} SearchFinds(g: Setting, items: seq<Item>, section: string, key: string, i: nat)
    requires i < |items|
    requires Normalize(g.lower, items[i].section) == Normalize(g.lower, section) && items[i].key == key
    requires forall j :: 0 <= j < i ==> KeyOf(g, items[j]) != KeyOf(g, items[i])
    ensures Search(g, items, section, key) == Some(items[i])
  {
    hide Normalize;
    if i > 0 {
      assert KeyOf(g, items[0]) != KeyOf(g, items[i]);
      assert forall j :: 0 <= j < i - 1 ==> items[1..][j] == items[j + 1];
      SearchFinds(g, items[1..], section, key, i - 1);
    }
  }

  lemma {:induction false} SearchFails(g: Setting, items: seq<Item>, section: string, key: string)
    requires forall i :: 0 <= i < |items| ==> KeyOf(g, items[i]) != IndexKey(g, section, key)
    ensures Search(g, items, section, key).None?
  {
    hide Normalize;
    if items != [] {
      assert KeyOf(g, items[0]) != IndexKey(g, section, key);
      SearchFails(g, items[1..], section, key);
    }
  }

  /** Looking a key up in the index is a linear search by section and key, when no section
      holds a NUL character. */
  lemma LookupIsSearch(g: Setting, items: seq<Item>, index: map<string, nat>, section: string, key: string)
    requires IndexFits(g, items, index)
    requires '\0' !in Normalize(g.lower, section)
    requires forall i :: 0 <= i < |items| ==> '\0' !in Normalize(g.lower, items[i].section)
    ensures var k := IndexKey(g, section, key);
            Search(g, items, section, key) == if k in index then Some(items[index[k]]) else None
  {
    hide Normalize;
    var k := IndexKey(g, section, key);
    if k in index {
      var i := index[k];
      PlainSectionsNeverCollide(g, section, key, items[i].section, items[i].key);
      hide IndexKey;
      SearchFinds(g, items, section, key, i);
    } else {
      hide IndexKey;
      SearchFails(g, items, section, key);
    }
  }

  // ---- Runs ----

  datatype Op =
    | StoreOp(section: string, key: string, value: string, now: int)
    | BulkOp(batch: seq<Item>, now: int)
    | RemoveOp(section: string, key: string)

  function ApplyOp(g: Setting, m: Facts, op: Op): Facts {
    match op
    case StoreOp(section, key, value, now) => Stored(g, m, section, key, value, now).facts
    case BulkOp(batch, now) => BulkWritten(g, m, batch, now)
    case RemoveOp(section, key) => m - {IndexKey(g, section, key)}
  }

  function ApplyOps(g: Setting, m: Facts, ops: seq<Op>): Facts {
    if ops == [] then m else ApplyOp(g, ApplyOps(g, m, ops[..|ops| - 1]), ops[|ops| - 1])
  }

  predicate Removes(g: Setting, op: Op, k: string) {
    op.RemoveOp? && IndexKey(g, op.section, op.key) == k
  }

  /** The stored item is untouched or replaced by one of a higher version. */
  predicate Newer(m: Facts, m': Facts, k: string) {
    k in m ==> k in m' && (m'[k] == m[k] || m'[k].version > m[k].version)
  }

  function CountKey(g: Setting, items: seq<Item>, k: string): nat {
    if items == [] then 0
    else CountKey(g, items[..|items| - 1], k) + if KeyOf(g, items[|items| - 1]) == k then 1 else 0
  }

  /** A bulk write adds one version for every item of the batch under the key, and leaves
      keys outside the batch alone. */
  lemma {:induction false} BulkCountsVersions(g: Setting, m: Facts, batch: seq<Item>, now: int, k: string)
    requires k in m
    ensures var m' := BulkWritten(g, m, batch, now);
            k in m' && m'[k].version == m[k].version + CountKey(g, batch, k)
            && (CountKey(g, batch, k) == 0 ==> m'[k] == m[k])
  {
    hide IndexKey, Normalize;
    if batch != [] { BulkCountsVersions(g, m, batch[..|batch| - 1], now, k); }
  }

  ghost predicate IsFirstWithKey(g: Setting, items: seq<Item>, k: string, i: nat) {
    i < |items| && KeyOf(g, items[i]) == k && forall j :: 0 <= j < i ==> KeyOf(g, items[j]) != k
  }

  /** Of the items of a batch under one key the last is what the memory holds afterwards,
      stamped and under its normalised section. */
  lemma {:induction false} BulkWritesLast(g: Setting, m: Facts, batch: seq<Item>, now: int, k: string, i: nat)
    requires IsLastWithKey(g, batch, k, i)
    ensures var m' := BulkWritten(g, m, batch, now);
            k in m' && m'[k] == batch[i].(section := Normalize(g.lower, batch[i].section), updatedAt := now,
                                          version := m'[k].version)
  {
    hide IndexKey, Normalize;
    var n := |batch| - 1;
    if i < n { BulkWritesLast(g, m, batch[..n], now, k, i); }
  }

  /** A batch brings in the keys of its items and no others; a new key starts with the version
      of its first item. */
  lemma {:induction false} BulkBringsIn(g: Setting, m: Facts, batch: seq<Item>, now: int, k: string, i: nat)
    requires k !in m
    ensures k in BulkWritten(g, m, batch, now) <==> CountKey(g, batch, k) > 0
    ensures IsFirstWithKey(g, batch, k, i) ==>
              k in BulkWritten(g, m, batch, now) &&
              BulkWritten(g, m, batch, now)[k].version == batch[i].version + CountKey(g, batch, k) - 1
  {
    hide IndexKey, Normalize;
    if batch != [] {
      var n := |batch| - 1;
      BulkBringsIn(g, m, batch[..n], now, k, i);
      if i == n && IsFirstWithKey(g, batch, k, i) { NotBefore(g, batch, k); }
    }
  }

  lemma NotBefore(g: Setting, batch: seq<Item>, k: string)
    requires batch != [] && IsFirstWithKey(g, batch, k, |batch| - 1)
    ensures CountKey(g, batch[..|batch| - 1], k) == 0
  {
    hide IndexKey;
    CountZero(g, batch[..|batch| - 1], k);
  }

  lemma {:induction false} CountZero(g: Setting, items: seq<Item>, k: string)
    ensures CountKey(g, items, k) == 0 <==> forall i :: 0 <= i < |items| ==> KeyOf(g, items[i]) != k
  {
    hide IndexKey;
    if items != [] { CountZero(g, items[..|items| - 1], k); }
  }

  lemma OpRaisesVersion(g: Setting, m: Facts, op: Op, k: string)
    requires !Removes(g, op, k)
    ensures Newer(m, ApplyOp(g, m, op), k)
  {
    hide IndexKey, SemanticMatch, Normalize, Decayed, BulkWritten, CountKey;
    if op.BulkOp? && k in m { BulkCountsVersions(g, m, op.batch, op.now, k); }
  }

  /** Over any run that does not remove a key, its item only ever changes to one with a
      higher version. */
  lemma {:induction false} VersionsRise(g: Setting, m: Facts, ops: seq<Op>, k: string)
    requires forall i :: 0 <= i < |ops| ==> !Removes(g, ops[i], k)
    ensures Newer(m, ApplyOps(g, m, ops), k)
  {
    hide ApplyOp, Removes;
    if ops != [] {
      VersionsRise(g, m, ops[..|ops| - 1], k);
      OpRaisesVersion(g, ApplyOps(g, m, ops[..|ops| - 1]), ops[|ops| - 1], k);
    }
  }

  // ---- When a stored value takes effect ----

  /** A fact held at full confidence after its age: it is not older than the question and is
      held at one or more, or what its age leaves of it still is. */
  predicate HoldsFirm(g: Setting, f: Item, now: int) {
    var age := now - f.updatedAt;
    if age <= 0 then f.confidence >= 1.0 else f.confidence * g.pow(age) >= 1.0
  }

  lemma FirmIff(g: Setting, f: Item, now: int)
    ensures HoldsFirm(g, f, now) <==> Decayed(g, f, now).confidence >= 1.0
  {
    var age := now - f.updatedAt;
    if age > 0 && f.confidence <= 0.0 { FadedIsNegative(f.confidence, g.pow(age)); }
  }

  lemma FadedIsNegative(confidence: real, left: real)
    requires confidence <= 0.0 && left > 0.0
    ensures confidence * left <= 0.0
  {
  }

  /** Store makes a Get of its key answer the new value, unless a different value holds firm:
      then the new value is dropped and the memory stays as it is. What takes effect is stored
      at full confidence with the next version; a conflict is reported exactly when the values
      differ. */
  lemma StoreTakesEffectIff(g: Setting, m: Facts, section: string, key: string, value: string, now: int)
    ensures var k := IndexKey(g, section, key);
            var m' := Stored(g, m, section, key, value, now).facts;
            && k in m'
            && (m'[k].value == value <==>
                  (k in m ==> SemanticMatch(g, m[k].value, value) || !HoldsFirm(g, m[k], now)))
            && (m'[k].value != value ==> m' == m)
            && (m'[k].value == value ==>
                  m'[k].confidence == 1.0 && m'[k].updatedAt == now && m'[k].version == if k in m then m[k].version + 1 else 1)
    ensures Stored(g, m, section, key, value, now).conflict.Some? <==>
              IndexKey(g, section, key) in m && !SemanticMatch(g, m[IndexKey(g, section, key)].value, value)
    ensures forall l :: l != IndexKey(g, section, key) ==>
              var m' := Stored(g, m, section, key, value, now).facts;
              (l in m' <==> l in m) && (l in m ==> m'[l] == m[l])
  {
    assert forall v :: SemanticMatch(g, v, v);
    if IndexKey(g, section, key) in m { FirmIff(g, m[IndexKey(g, section, key)], now); }
    hide IndexKey, SemanticMatch, Normalize, Decayed, HoldsFirm;
  }

  /** What is stored: a matching value goes into the item that is there, with its section,
      key and source; a new or displacing one becomes an item of its own without a source.
      The winner returned is what is stored, the conflict is the loser. */
  lemma StoredItemIs(g: Setting, m: Facts, section: string, key: string, value: string, now: int)
    ensures var k, r := IndexKey(g, section, key), Stored(g, m, section, key, value, now);
            var made := Item(Normalize(g.lower, section), key, value, "", 1, 1.0, now);
            && k in r.facts && r.facts == m[k := r.winner]
            && (k !in m ==> r.winner == made && r.conflict == None)
            && (k in m && SemanticMatch(g, m[k].value, value) ==>
                  r.winner == m[k].(value := value, confidence := 1.0, updatedAt := now, version := m[k].version + 1)
                  && r.conflict == None)
            && (k in m && !SemanticMatch(g, m[k].value, value) && !HoldsFirm(g, m[k], now) ==>
                  r.winner == made.(version := m[k].version + 1) && r.conflict == Some(m[k]))
            && (k in m && !SemanticMatch(g, m[k].value, value) && HoldsFirm(g, m[k], now) ==>
                  r.winner == m[k] && r.conflict == Some(made.(version := m[k].version + 1, updatedAt := 0)))
  {
    if IndexKey(g, section, key) in m { FirmIff(g, m[IndexKey(g, section, key)], now); }
    hide IndexKey, SemanticMatch, Normalize, Decayed, HoldsFirm;
  }

  /** So where any age takes something away, a fact from the past gives way to a different
      value, whatever confidence up to one it was stored with. */
  lemma OldFactGivesWay(g: Setting, m: Facts, section: string, key: string, value: string, now: int)
    requires var k := IndexKey(g, section, key);
             k in m && m[k].updatedAt < now && m[k].confidence <= 1.0 && g.pow(now - m[k].updatedAt) < 1.0
    ensures var k := IndexKey(g, section, key);
            var m' := Stored(g, m, section, key, value, now).facts;
            k in m' && m'[k].value == value && m'[k].confidence == 1.0 && m'[k].updatedAt == now
  {
    var f := m[IndexKey(g, section, key)];
    StoreTakesEffectIff(g, m, section, key, value, now);
    FadedIsBelowOne(f.confidence, g.pow(now - f.updatedAt));
    hide IndexKey, SemanticMatch, Normalize, Stored;
  }

  lemma FadedIsBelowOne(confidence: real, left: real)
    requires confidence <= 1.0 && 0.0 < left < 1.0
    ensures confidence * left < 1.0
  {
    assert (1.0 - confidence) * left >= 0.0;
  }

  /** So of two different values stored at the same instant under a new key, the second
      is dropped. */
  lemma SecondStoreIsDropped(g: Setting, m: Facts, section: string, key: string, v: string, w: string, now: int)
    requires IndexKey(g, section, key) !in m && !SemanticMatch(g, v, w)
    ensures var m' := Stored(g, m, section, key, v, now).facts;
            Stored(g, m', section, key, w, now).facts == m'
  {
    hide IndexKey, SemanticMatch, Normalize;
  }

  /** Decay touches nothing but a positive confidence whose item is older than the question:
      it lowers it where its age takes something away, and ends at one tenth. */
  lemma DecayLowers(g: Setting, item: Item, now: int)
    ensures var age, r := now - item.updatedAt, Decayed(g, item, now);
            && r == item.(confidence := r.confidence)
            && (item.confidence <= 0.0 || age <= 0 ==> r == item)
            && (age > 0 && item.confidence > 0.1 && g.pow(age) < 1.0 ==> r.confidence < item.confidence)
            && (age > 0 && item.confidence > 0.0 && item.confidence * g.pow(age) <= 0.1 ==> r.confidence == 0.1)
            && (age > 0 && item.confidence > 0.0 && item.confidence * g.pow(age) > 0.1 ==>
                  r.confidence == item.confidence * g.pow(age))
  {
    var age := now - item.updatedAt;
    if age > 0 && item.confidence > 0.0 && g.pow(age) < 1.0 { FadedIsBelow(item.confidence, g.pow(age)); }
  }

  lemma FadedIsBelow(confidence: real, left: real)
    requires confidence > 0.0 && left < 1.0
    ensures Faded(confidence, left) < confidence
  {
    assert confidence * (1.0 - left) > 0.0;
  }

  /** Where the factor falls with age, a fact never gains from waiting longer. */
  lemma DecayFallsWithAge(g: Setting, item: Item, earlier: int, later: int)
    requires earlier <= later
    requires forall a, b :: 0 < a <= b ==> g.pow(b) <= g.pow(a)
    ensures earlier > item.updatedAt || item.confidence >= 0.1 ==>
              Decayed(g, item, later).confidence <= Decayed(g, item, earlier).confidence
  {
    var a, b := earlier - item.updatedAt, later - item.updatedAt;
    if item.confidence > 0.0 && b > 0 {
      if a > 0 {
        FadesMore(item.confidence, g.pow(a), g.pow(b));
      } else {
        FadedIsLess(item.confidence, g.pow(b));
      }
    }
    hide Faded;
  }

  lemma FadesMore(confidence: real, left: real, less: real)
    requires confidence > 0.0 && less <= left
    ensures Faded(confidence, less) <= Faded(confidence, left)
  {
    assert confidence * (left - less) >= 0.0;
  }

  /** Decay never raises a confidence above one tenth. */
  lemma DecayOnlyLowers(g: Setting, item: Item, now: int)
    ensures Decayed(g, item, now).confidence <= Max(0.1, item.confidence)
    ensures item.confidence >= 0.1 ==> 0.1 <= Decayed(g, item, now).confidence <= item.confidence
  {
    if item.confidence > 0.0 && now - item.updatedAt > 0 {
      FadedIsLess(item.confidence, g.pow(now - item.updatedAt));
      hide Faded;
    }
  }

  lemma FadedIsLess(confidence: real, left: real)
    requires confidence > 0.0 && left <= 1.0
    ensures Faded(confidence, left) <= confidence
  {
    assert confidence * (1.0 - left) >= 0.0;
  }
}
