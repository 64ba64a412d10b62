/** The write pipeline: extracted candidates are resolved against the memory, thinned out
    by deduplication and stored in bulk. */
module WritePipeline {
  import opened GoStrings
  import opened Options
  import opened LongTermMemory

  datatype Candidate = Candidate(section: string, key: string, value: string, evidence: string, confidence: real)

  function ConfidenceGap(configured: real): (gap: real)
    ensures gap > 0.0 && gap == if configured > 0.0 then configured else 0.15
  {
    if configured <= 0.0 then 0.15 else configured
  }

  function ClampConfidence(c: real): (r: real)
    ensures 0.0 < r <= 1.0
    ensures 0.0 < c <= 1.0 ==> r == c
    ensures c <= 0.0 ==> r == 0.5
    ensures c > 1.0 ==> r == 1.0
  {
    if c <= 0.0 then 0.5 else if c > 1.0 then 1.0 else c
  }

  function Get(g: Setting, m: Facts, section: string, key: string, now: int): Option<Item> {
    var k := IndexKey(g, section, key);
    if k in m then Some(Decayed(g, m[k], now)) else None
  }

  function CandidateKey(g: Setting, c: Candidate): string {
    IndexKey(g, c.section, c.key)
  }

  // ---- Resolving ----

  /** The item that wins between a candidate and what the memory holds. */
  function ResolveOne(g: Setting, gap: real, m: Facts, c: Candidate, now: int): Item {
    var found := Get(g, m, c.section, c.key, now);
    var conf := ClampConfidence(c.confidence);
    if found.None? then Item(c.section, c.key, c.value, c.evidence, 1, conf, now)
    else
      var existing := found.value;
      if SemanticMatch(g, existing.value, c.value) then
        existing.(confidence := Min(1.0, existing.confidence + 0.1), value := c.value,
                  source := if c.evidence != "" then c.evidence else existing.source,
                  version := existing.version + 1, updatedAt := now)
      else
        var distance := if conf >= existing.confidence then conf - existing.confidence else existing.confidence - conf;
        if distance >= gap && conf > existing.confidence then
          Item(c.section, c.key, c.value, c.evidence, existing.version + 1, conf, now)
        else existing
  }

  function Resolved(g: Setting, gap: real, m: Facts, candidates: seq<Candidate>, clock: int -> int): (r: seq<Item>)
    ensures |r| == |candidates|
  {
    seq(|candidates|, i requires 0 <= i < |candidates| => ResolveOne(g, gap, m, candidates[i], clock(i)))
  }

  /** Whether a candidate displaces an item the memory holds. */
  predicate Overrides(g: Setting, gap: real, m: Facts, c: Candidate, now: int) {
    var k := CandidateKey(g, c);
    && k in m
    && !SemanticMatch(g, m[k].value, c.value)
    && ClampConfidence(c.confidence) >= Decayed(g, m[k], now).confidence + gap
  }

  /** The winner, in full: a new or displacing candidate with its clamped confidence and its
      evidence as the source; a restated item with a bonus on what is left of its confidence;
      or what is held, as Get would answer it. */
  lemma WinnerIs(g: Setting, gap: real, m: Facts, c: Candidate, now: int)
    requires gap > 0.0
    ensures var k, w := CandidateKey(g, c), ResolveOne(g, gap, m, c, now);
            && (k !in m ==> w == Item(c.section, c.key, c.value, c.evidence, 1, ClampConfidence(c.confidence), now))
            && (Overrides(g, gap, m, c, now) ==>
                  w == Item(c.section, c.key, c.value, c.evidence, m[k].version + 1, ClampConfidence(c.confidence), now))
            && (k in m && SemanticMatch(g, m[k].value, c.value) ==>
                  w == m[k].(value := c.value, source := if c.evidence == "" then m[k].source else c.evidence,
                             version := m[k].version + 1, updatedAt := now, confidence := w.confidence)
                  && w.confidence == Min(1.0, Decayed(g, m[k], now).confidence + 0.1))
            && (k in m && !SemanticMatch(g, m[k].value, c.value) && !Overrides(g, gap, m, c, now) ==>
                  w == Decayed(g, m[k], now))
  {
    if CandidateKey(g, c) in m { DecayLowers(g, m[CandidateKey(g, c)], now); }
    hide IndexKey, SemanticMatch, Decayed, ClampConfidence;
  }

  // ---- Deduplication ----

  predicate ExistingDuplicate(g: Setting, m: Facts, item: Item) {
    var k := KeyOf(g, item);
    k in m && SemanticMatch(g, m[k].value, item.value)
  }

  /** Whether an accepted item makes a later one of the same batch redundant. */
  predicate PeerDuplicate(g: Setting, accepted: Item, item: Item) {
    accepted.section == item.section && (accepted.key == item.key || SemanticMatch(g, accepted.value, item.value))
  }

  /** The positions of a batch that deduplication keeps. */
  ghost predicate Keeps(g: Setting, m: Facts, batch: seq<Item>, kept: set<nat>) {
    forall i: nat :: i in kept <==> i < |batch| && Unrivalled(g, m, batch, kept, i)
  }

  /** Neither the memory nor an earlier kept item says the same. */
  ghost predicate Unrivalled(g: Setting, m: Facts, batch: seq<Item>, kept: set<nat>, i: nat)
    requires i < |batch|
  {
    !ExistingDuplicate(g, m, batch[i]) && forall j: nat :: j < i && j in kept ==> !PeerDuplicate(g, batch[j], batch[i])
  }

  function Pick(batch: seq<Item>, kept: set<nat>): seq<Item> {
    if batch == [] then []
    else
      var n := |batch| - 1;
      Pick(batch[..n], kept) + if n in kept then [batch[n]] else []
  }

  /** Keeping is determined: there is one way to thin a batch out. */
  lemma {:induction false} KeepsIsUnique(g: Setting, m: Facts, batch: seq<Item>, a: set<nat>, b: set<nat>, i: nat)
    requires Keeps(g, m, batch, a) && Keeps(g, m, batch, b)
    ensures i in a <==> i in b
  {
    hide ExistingDuplicate, PeerDuplicate;
    if i < |batch| {
      forall j: nat | j < i ensures j in a <==> j in b {
        KeepsIsUnique(g, m, batch, a, b, j);
      }
      assert Unrivalled(g, m, batch, a, i) <==> Unrivalled(g, m, batch, b, i);
    }
  }

  lemma KeepsOneMore(g: Setting, m: Facts, batch: seq<Item>, item: Item, kept: set<nat>)
    requires Keeps(g, m, batch, kept)
    ensures var more := if Unrivalled(g, m, batch + [item], kept, |batch|) then kept + {|batch|} else kept;
            Keeps(g, m, batch + [item], more)
  {
    hide ExistingDuplicate, PeerDuplicate;
    var longer := batch + [item];
    var more := if Unrivalled(g, m, longer, kept, |batch|) then kept + {|batch|} else kept;
    forall i: nat ensures i in more <==> i < |longer| && Unrivalled(g, m, longer, more, i) {
      if i < |batch| {
        assert longer[i] == batch[i] && forall j: nat :: j < i ==> longer[j] == batch[j];
        assert Unrivalled(g, m, longer, more, i) <==> Unrivalled(g, m, batch, kept, i);
      }
    }
  }

  lemma {:induction false} PickIgnoresLater(batch: seq<Item>, a: set<nat>, b: set<nat>)
    requires forall i: nat :: i < |batch| ==> (i in a <==> i in b)
    ensures Pick(batch, a) == Pick(batch, b)
  {
    if batch != [] { PickIgnoresLater(batch[..|batch| - 1], a, b); }
  }

  /** What is picked comes from kept positions, and every kept position is picked. */
  lemma {:induction false} PickedFrom(batch: seq<Item>, kept: set<nat>, item: Item)
    ensures item in Pick(batch, kept) <==> exists i: nat :: i < |batch| && i in kept && batch[i] == item
  {
    if batch != [] {
      var n := |batch| - 1;
      PickedFrom(batch[..n], kept, item);
      hide Pick;
      assert item in Pick(batch, kept) <==> item in Pick(batch[..n], kept) || (n in kept && batch[n] == item) by {
        PickLast(batch, kept, item);
      }
      if i: nat :| i < |batch| && i in kept && batch[i] == item {
        if i < n { assert batch[..n][i] == item; }
      }
    }
  }

  lemma PickLast(batch: seq<Item>, kept: set<nat>, item: Item)
    requires batch != []
    ensures var n := |batch| - 1;
            item in Pick(batch, kept) <==> item in Pick(batch[..n], kept) || (n in kept && batch[n] == item)
  {
  }

  // ---- The pipeline ----

  datatype Report = Report(extracted: nat, stored: nat, rejected: nat)

  method Resolve(memory: Memory, gap: real, candidates: seq<Candidate>, clock: int -> int) returns (stored: seq<Item>)
    requires memory.Valid()
    ensures stored == Resolved(memory.g, gap, memory.Abs(), candidates, clock)
  {
    hide IndexKey, SemanticMatch, Decayed, ClampConfidence, IndexFits;
    stored := [];
    for i := 0 to |candidates|
      invariant |stored| == i
      invariant forall j :: 0 <= j < i ==> stored[j] == ResolveOne(memory.g, gap, memory.Abs(), candidates[j], clock(j))
    {
      var c, now := candidates[i], clock(i);
      var existing := memory.Get(c.section, c.key, now);
      var conf := ClampConfidence(c.confidence);
      var winner;
      if existing.None? {
        winner := Item(c.section, c.key, c.value, c.evidence, 1, conf, now);
      } else {
        var e := existing.value;
        if SemanticMatch(memory.g, e.value, c.value) {
          winner := e.(confidence := Min(1.0, e.confidence + 0.1), value := c.value);
          if c.evidence != "" { winner := winner.(source := c.evidence); }
          winner := winner.(version := e.version + 1, updatedAt := now);
        } else {
          var distance := if conf >= e.confidence then conf - e.confidence else e.confidence - conf;
          if distance >= gap && conf > e.confidence {
            winner := Item(c.section, c.key, c.value, c.evidence, e.version + 1, conf, now);
          } else {
            winner := e;
          }
        }
      }
      stored := stored + [winner];
    }
  }

  method IsExistingDuplicate(memory: Memory, item: Item, now: int) returns (b: bool)
    requires memory.Valid()
    ensures b == ExistingDuplicate(memory.g, memory.Abs(), item)
  {
    var existing := memory.Get(item.section, item.key, now);
    if existing.None? { return false; }
    if existing.value.value == item.value { return true; }
    b := SemanticMatch(memory.g, existing.value.value, item.value);
  }

  method IsBatchDuplicate(g: Setting, item: Item, accepted: seq<Item>) returns (b: bool)
    ensures b <==> exists a :: a in accepted && PeerDuplicate(g, a, item)
  {
    hide SemanticMatch;
    for i := 0 to |accepted|
      invariant forall j :: 0 <= j < i ==> !PeerDuplicate(g, accepted[j], item)
    {
      var a := accepted[i];
      if a.section == item.section && a.key == item.key {
        assert PeerDuplicate(g, a, item);
        return true;
      }
      if a.section == item.section && a.key != item.key {
        if SemanticMatch(g, a.value, item.value) {
          assert PeerDuplicate(g, a, item);
          return true;
        }
      }
    }
    return false;
  }

  /** Deduplication is greedy and leaves nothing out: an item is kept if and only if
      neither the memory nor an earlier kept item says the same. */
  method DedupItems(memory: Memory, batch: seq<Item>, now: int)
    returns (accepted: seq<Item>, rejected: nat, ghost kept: set<nat>)
    requires memory.Valid()
    ensures Keeps(memory.g, memory.Abs(), batch, kept) && accepted == Pick(batch, kept)
    ensures |accepted| + rejected == |batch|
  {
    accepted, rejected, kept := [], 0, {};
    ghost var g, m := memory.g, memory.Abs();
    hide ExistingDuplicate, PeerDuplicate, Keeps, IndexFits, Pick;
    NothingKept(g, m);
    for i := 0 to |batch|
      invariant Keeps(g, m, batch[..i], kept) && accepted == Pick(batch[..i], kept)
      invariant |accepted| + rejected == i
      invariant forall j :: j in kept ==> j < i
    {
      var f := batch[i];
      assert batch[..i + 1] == batch[..i] + [f];
      DedupStep(g, m, batch[..i], kept, f);
      var dup := IsExistingDuplicate(memory, f, now);
      if dup {
        rejected := rejected + 1;
        continue;
      }
      dup := IsBatchDuplicate(memory.g, f, accepted);
      if dup {
        rejected := rejected + 1;
        continue;
      }
      accepted := accepted + [f];
      kept := kept + {i};
    }
    assert batch[..|batch|] == batch;
  }

  lemma NothingKept(g: Setting, m: Facts)
    ensures Keeps(g, m, [], {}) && Pick([], {}) == []
  {
  }

  predicate Duplicate(g: Setting, m: Facts, accepted: seq<Item>, item: Item) {
    ExistingDuplicate(g, m, item) || exists a :: a in accepted && PeerDuplicate(g, a, item)
  }

  lemma DedupStep(g: Setting, m: Facts, batch: seq<Item>, kept: set<nat>, item: Item)
    requires Keeps(g, m, batch, kept)
    ensures var accepted, n := Pick(batch, kept), |batch|;
            if Duplicate(g, m, accepted, item) then
              Keeps(g, m, batch + [item], kept) && Pick(batch + [item], kept) == accepted
            else
              Keeps(g, m, batch + [item], kept + {n}) && Pick(batch + [item], kept + {n}) == accepted + [item]
  {
    hide ExistingDuplicate, PeerDuplicate;
    var n, longer := |batch|, batch + [item];
    KeepsOneMore(g, m, batch, item, kept);
    PeersOfKept(g, batch, kept, item);
    PickIgnoresLater(batch, kept, kept + {n});
    assert longer[..n] == batch;
    assert n !in kept;
    hide Keeps;
    assert Unrivalled(g, m, longer, kept, n) <==> !Duplicate(g, m, Pick(batch, kept), item);
  }

  lemma PeersOfKept(g: Setting, batch: seq<Item>, kept: set<nat>, item: Item)
    ensures (exists a :: a in Pick(batch, kept) && PeerDuplicate(g, a, item)) <==>
              exists j: nat :: j < |batch| && j in kept && PeerDuplicate(g, batch[j], item)
  {
    hide PeerDuplicate, Pick;
    if a :| a in Pick(batch, kept) && PeerDuplicate(g, a, item) {
      PickedFrom(batch, kept, a);
    }
    if j: nat :| j < |batch| && j in kept && PeerDuplicate(g, batch[j], item) {
      PickedFrom(batch, kept, batch[j]);
    }
  }

  /** One run of the pipeline on what the extractor found. */
  method Run(memory: Memory, configuredGap: real, candidates: seq<Candidate>, clock: int -> int, now: int)
    returns (report: Report, ghost kept: set<nat>)
    requires memory.Valid()
    modifies memory`items, memory`index
    ensures memory.Valid()
    ensures var resolved := Resolved(memory.g, ConfidenceGap(configuredGap), old(memory.Abs()), candidates, clock);
            && Keeps(memory.g, old(memory.Abs()), resolved, kept)
            && memory.Abs() == BulkWritten(memory.g, old(memory.Abs()), Pick(resolved, kept), now)
            && report.stored == |Pick(resolved, kept)|
    ensures report.extracted == |candidates| && report.stored + report.rejected == |candidates|
    ensures forall k :: k in old(memory.Abs()) ==>
              k in memory.Abs() &&
              (memory.Abs()[k] != old(memory.Abs())[k] ==>
                 SomeOverride(memory.g, ConfidenceGap(configuredGap), old(memory.Abs()), candidates, clock, k))
  {
    ghost var m := memory.Abs();
    MemoryIsKeyed(memory.g, memory.items, memory.index);
    assert m == AsMap(memory.items, memory.index);
    var resolved := Resolve(memory, ConfidenceGap(configuredGap), candidates, clock);
    var accepted, rejected;
    accepted, rejected, kept := DedupItems(memory, resolved, now);
    if |accepted| > 0 {
      memory.BulkStore(accepted, now);
    }
    report := Report(|candidates|, |accepted|, rejected);
    forall k | k in m
      ensures k in memory.Abs()
      ensures memory.Abs()[k] != m[k] ==> SomeOverride(memory.g, ConfidenceGap(configuredGap), m, candidates, clock, k)
    {
      UntouchedUnlessOverridden(memory.g, ConfidenceGap(configuredGap), m, candidates, clock, kept, now, k);
    }
  }

  // ---- What a run can change ----

  /** Every stored item sits under its own key. */
  ghost predicate Keyed(g: Setting, m: Facts) {
    forall k :: k in m ==> KeyOf(g, m[k]) == k
  }

  lemma MemoryIsKeyed(g: Setting, items: seq<Item>, index: map<string, nat>)
    requires IndexFits(g, items, index)
    ensures Keyed(g, AsMap(items, index))
  {
    hide IndexKey;
  }

  /** A winner that survives deduplication is a new key or displaces what is stored. */
  lemma SurvivorsAreNewOrOverride(g: Setting, gap: real, m: Facts, c: Candidate, now: int)
    requires Keyed(g, m) && gap > 0.0
    ensures var w := ResolveOne(g, gap, m, c, now);
            && KeyOf(g, w) == CandidateKey(g, c)
            && (ExistingDuplicate(g, m, w) <==> CandidateKey(g, c) in m && !Overrides(g, gap, m, c, now))
            && (!ExistingDuplicate(g, m, w) ==> w.value == c.value && w.section == c.section && w.key == c.key)
  {
    MatchesItself(g, ResolveOne(g, gap, m, c, now).value);
    hide IndexKey, SemanticMatch;
  }

  lemma MatchesItself(g: Setting, v: string)
    ensures SemanticMatch(g, v, v)
  {
  }

  /** Some candidate for a key displaces what is stored under it. */
  ghost predicate SomeOverride(g: Setting, gap: real, m: Facts, candidates: seq<Candidate>, clock: int -> int, k: string) {
    exists i :: 0 <= i < |candidates| && CandidateKey(g, candidates[i]) == k && Overrides(g, gap, m, candidates[i], clock(i))
  }

  /** In one run of the pipeline a stored item stays as it is unless some candidate for its
      key is no semantic match and its clamped confidence beats the decayed one by the gap. */
  lemma UntouchedUnlessOverridden(g: Setting, gap: real, m: Facts, candidates: seq<Candidate>, clock: int -> int,
                                  kept: set<nat>, now: int, k: string)
    requires Keyed(g, m) && gap > 0.0 && k in m
    requires Keeps(g, m, Resolved(g, gap, m, candidates, clock), kept)
    ensures var m' := BulkWritten(g, m, Pick(Resolved(g, gap, m, candidates, clock), kept), now);
            && k in m'
            && (m'[k] != m[k] ==> SomeOverride(g, gap, m, candidates, clock, k))
  {
    hide Overrides, ResolveOne, SemanticMatch, IndexKey, BulkWritten, Pick, Keyed;
    var resolved := Resolved(g, gap, m, candidates, clock);
    var accepted := Pick(resolved, kept);
    BulkCountsVersions(g, m, accepted, now, k);
    CountZero(g, accepted, k);
    if i :| 0 <= i < |accepted| && KeyOf(g, accepted[i]) == k {
      PickedFrom(resolved, kept, accepted[i]);
      var j: nat :| j < |resolved| && j in kept && resolved[j] == accepted[i];
      assert Unrivalled(g, m, resolved, kept, j);
      hide Keeps, Unrivalled, ExistingDuplicate;
      SurvivorsAreNewOrOverride(g, gap, m, candidates[j], clock(j));
    }
  }

  /** So a restatement of a stored value never reaches the memory, and the confidence
      bonus it was resolved with is lost. */
  lemma RestatementsAreLost(g: Setting, gap: real, m: Facts, candidates: seq<Candidate>, clock: int -> int,
                            kept: set<nat>, i: nat)
    requires Keyed(g, m) && gap > 0.0 && i < |candidates|
    requires Keeps(g, m, Resolved(g, gap, m, candidates, clock), kept)
    requires CandidateKey(g, candidates[i]) in m && SemanticMatch(g, m[CandidateKey(g, candidates[i])].value, candidates[i].value)
    ensures i !in kept
    ensures ResolveOne(g, gap, m, candidates[i], clock(i)).version == m[CandidateKey(g, candidates[i])].version + 1
  {
    hide SemanticMatch, IndexKey, Keyed;
    SurvivorsAreNewOrOverride(g, gap, m, candidates[i], clock(i));
    hide ResolveOne, ExistingDuplicate;
    var resolved := Resolved(g, gap, m, candidates, clock);
    assert ExistingDuplicate(g, m, resolved[i]);
    assert i in kept ==> Unrivalled(g, m, resolved, kept, i);
  }

  /** A run writes one key twice only through two spellings of its section. */
  lemma WrittenTwiceIsSpelledTwice(g: Setting, gap: real, m: Facts, candidates: seq<Candidate>, clock: int -> int,
                                   kept: set<nat>, i: nat, j: nat)
    requires Keyed(g, m) && gap > 0.0
    requires Keeps(g, m, Resolved(g, gap, m, candidates, clock), kept)
    requires i < j < |candidates| && i in kept && j in kept
    requires '\0' !in Normalize(g.lower, candidates[i].section) && '\0' !in Normalize(g.lower, candidates[j].section)
    requires CandidateKey(g, candidates[i]) == CandidateKey(g, candidates[j])
    ensures candidates[i].section != candidates[j].section
  {
    hide ResolveOne, SemanticMatch, IndexKey, Keyed, ExistingDuplicate, Normalize, Overrides;
    var resolved := Resolved(g, gap, m, candidates, clock);
    SurvivorsAreNewOrOverride(g, gap, m, candidates[i], clock(i));
    SurvivorsAreNewOrOverride(g, gap, m, candidates[j], clock(j));
    assert Unrivalled(g, m, resolved, kept, i) && Unrivalled(g, m, resolved, kept, j);
    var a, b := candidates[i], candidates[j];
    assert !PeerDuplicate(g, resolved[i], resolved[j]);
    PlainSectionsNeverCollide(g, a.section, a.key, b.section, b.key);
  }

  /** Of two candidates for one key both are stored if and only if their sections are spelled
      differently and, where the key is held already, each displaces what is held. */
  lemma PairIsKeptIff(g: Setting, gap: real, m: Facts, a: Candidate, b: Candidate, clock: int -> int, kept: set<nat>)
    requires Keyed(g, m) && gap > 0.0 && a.key == b.key && CandidateKey(g, a) == CandidateKey(g, b)
    requires Keeps(g, m, Resolved(g, gap, m, [a, b], clock), kept)
    ensures 0 in kept && 1 in kept <==>
              a.section != b.section &&
              (CandidateKey(g, a) in m ==> Overrides(g, gap, m, a, clock(0)) && Overrides(g, gap, m, b, clock(1)))
  {
    hide ResolveOne, SemanticMatch, IndexKey, Keyed, ExistingDuplicate, Normalize;
    var resolved := Resolved(g, gap, m, [a, b], clock);
    SurvivorsAreNewOrOverride(g, gap, m, a, clock(0));
    SurvivorsAreNewOrOverride(g, gap, m, b, clock(1));
    assert resolved[0] == ResolveOne(g, gap, m, a, clock(0)) && resolved[1] == ResolveOne(g, gap, m, b, clock(1));
    assert 0 in kept <==> Unrivalled(g, m, resolved, kept, 0);
    assert 1 in kept <==> Unrivalled(g, m, resolved, kept, 1);
  }

  /** And of two new candidates for different keys both are stored if and only if their
      sections are spelled differently or their values do not match; otherwise the first. */
  lemma PairOfValuesIff(g: Setting, gap: real, m: Facts, a: Candidate, b: Candidate, clock: int -> int, kept: set<nat>)
    requires Keyed(g, m) && gap > 0.0 && a.key != b.key && CandidateKey(g, a) !in m && CandidateKey(g, b) !in m
    requires Keeps(g, m, Resolved(g, gap, m, [a, b], clock), kept)
    ensures 0 in kept && (1 in kept <==> a.section != b.section || !SemanticMatch(g, a.value, b.value))
  {
    WinnerIs(g, gap, m, a, clock(0));
    WinnerIs(g, gap, m, b, clock(1));
    SurvivorsAreNewOrOverride(g, gap, m, a, clock(0));
    SurvivorsAreNewOrOverride(g, gap, m, b, clock(1));
    hide ResolveOne, SemanticMatch, IndexKey, Keyed, ExistingDuplicate, Normalize, Overrides, ClampConfidence, Decayed;
    var resolved := Resolved(g, gap, m, [a, b], clock);
    assert resolved[0] == ResolveOne(g, gap, m, a, clock(0)) && resolved[1] == ResolveOne(g, gap, m, b, clock(1));
    assert 0 in kept <==> Unrivalled(g, m, resolved, kept, 0);
    assert 1 in kept <==> Unrivalled(g, m, resolved, kept, 1);
  }

  /** The last of the picked items under a key is the item of the last kept position with
      that key. */
  lemma {:induction false} PickedLast(g: Setting, batch: seq<Item>, kept: set<nat>, k: string, i: nat) returns (n: nat)
    requires i < |batch| && i in kept && KeyOf(g, batch[i]) == k
    requires forall j: nat :: i < j < |batch| && j in kept ==> KeyOf(g, batch[j]) != k
    ensures IsLastWithKey(g, Pick(batch, kept), k, n) && Pick(batch, kept)[n] == batch[i]
  {
    hide IndexKey;
    var last := |batch| - 1;
    if i == last {
      n := |Pick(batch, kept)| - 1;
    } else {
      n := PickedLast(g, batch[..last], kept, k, i);
    }
  }

  /** What a run leaves in the memory under the key of a kept candidate that no later kept one
      shares: its value, its clamped confidence and its evidence, dated to the run. */
  lemma KeptCandidateIsStored(g: Setting, gap: real, m: Facts, candidates: seq<Candidate>, clock: int -> int,
                              kept: set<nat>, now: int, i: nat)
    requires Keyed(g, m) && gap > 0.0 && i < |candidates| && i in kept
    requires Keeps(g, m, Resolved(g, gap, m, candidates, clock), kept)
    requires forall j: nat :: i < j < |candidates| && j in kept ==> CandidateKey(g, candidates[j]) != CandidateKey(g, candidates[i])
    ensures var c, m' := candidates[i], BulkWritten(g, m, Pick(Resolved(g, gap, m, candidates, clock), kept), now);
            var k := CandidateKey(g, c);
            && k in m'
            && m'[k] == Item(Normalize(g.lower, c.section), c.key, c.value, c.evidence, m'[k].version,
                             ClampConfidence(c.confidence), now)
            && (k in m ==> m'[k].version > m[k].version)
  {
    hide ResolveOne, SemanticMatch, IndexKey, Keyed, ExistingDuplicate, Normalize, Overrides, BulkWritten, Pick, Keeps, ClampConfidence,
         CandidateKey, CountKey;
    var c, resolved := candidates[i], Resolved(g, gap, m, candidates, clock);
    var k := CandidateKey(g, c);
    KeptIsNew(g, gap, m, candidates, clock, kept, i);
    forall j: nat | i < j < |resolved| && j in kept ensures KeyOf(g, resolved[j]) != k {
      SurvivorsAreNewOrOverride(g, gap, m, candidates[j], clock(j));
    }
    var n := PickedLast(g, resolved, kept, k, i);
    BulkWritesLast(g, m, Pick(resolved, kept), now, k, n);
    if k in m {
      BulkCountsVersions(g, m, Pick(resolved, kept), now, k);
      CountZero(g, Pick(resolved, kept), k);
    }
  }

  lemma KeptIsNew(g: Setting, gap: real, m: Facts, candidates: seq<Candidate>, clock: int -> int, kept: set<nat>, i: nat)
    requires Keyed(g, m) && gap > 0.0 && i < |candidates| && i in kept
    requires Keeps(g, m, Resolved(g, gap, m, candidates, clock), kept)
    ensures var c, w := candidates[i], Resolved(g, gap, m, candidates, clock)[i];
            && w == Item(c.section, c.key, c.value, c.evidence, w.version, ClampConfidence(c.confidence), clock(i))
            && KeyOf(g, w) == CandidateKey(g, c)
  {
    var resolved := Resolved(g, gap, m, candidates, clock);
    assert Unrivalled(g, m, resolved, kept, i);
    SurvivorsAreNewOrOverride(g, gap, m, candidates[i], clock(i));
    WinnerIs(g, gap, m, candidates[i], clock(i));
    hide ResolveOne, SemanticMatch, IndexKey, Keyed, ExistingDuplicate, Normalize, Overrides, ClampConfidence, Decayed;
  }

  /** So two spellings of one section slip past deduplication together, even with
      one and the same value, and the later one is stored on top of the earlier. */
  lemma SpellingsSlipPast(g: Setting, gap: real, a: Candidate, b: Candidate, clock: int -> int, now: int)
    requires a.section != b.section && CandidateKey(g, a) == CandidateKey(g, b) && gap > 0.0
    ensures var resolved := Resolved(g, gap, map[], [a, b], clock);
            && Keeps(g, map[], resolved, {0, 1})
            && var m' := BulkWritten(g, map[], Pick(resolved, {0, 1}), now);
               CandidateKey(g, a) in m' && m'[CandidateKey(g, a)].version == 2 && m'[CandidateKey(g, a)].value == b.value
  {
    hide SemanticMatch, IndexKey, Normalize;
    var resolved := Resolved(g, gap, map[], [a, b], clock);
    assert resolved[0] == ResolveOne(g, gap, map[], a, clock(0));
    assert resolved[1] == ResolveOne(g, gap, map[], b, clock(1));
    forall i: nat ensures i in {0, 1} <==> i < 2 && Unrivalled(g, map[], resolved, {0, 1}, i) {}
    PickBoth(resolved);
    assert resolved[..1] == [resolved[0]] && resolved[..1][..0] == [];
    assert BulkWritten(g, map[], resolved[..1], now) == Written(g, map[], resolved[0], now);
  }

  lemma PickBoth(pair: seq<Item>)
    requires |pair| == 2
    ensures Pick(pair, {0, 1}) == pair
  {
    assert pair[..1][..0] == [];
    assert Pick(pair[..1], {0, 1}) == [pair[0]];
  }
}
