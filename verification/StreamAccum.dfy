/** Reassembling tool calls from a stream of deltas, and the content built from them. */
module StreamAccum {
  import opened Options
  import opened Messages
  import ReactLoop

  /** One tool call delta: an optional call id, the position in the reply, an optional name
      and a fragment of the arguments. */
  datatype Delta = Delta(id: string, index: int, name: string, args: string)

  datatype Piece = TextPiece(text: string) | ReasoningPiece(reasoning: string) | OtherPiece

  /** A chunk of the stream: its deltas and, when it could be converted, its content. */
  datatype Chunk = Chunk(deltas: seq<Delta>, piece: Option<Piece>)

  /** toolCallEntry. */
  datatype Entry = Entry(name: string, rawArgs: string)

  datatype Call = Call(id: string, name: string)

  /** The accumulator: entries by call id, call ids by index, and the OnFunctionCall
      notifications so far. */
  datatype Accum = Accum(entries: map<string, Entry>, indexToID: map<int, string>, calls: seq<Call>)

  const NOTHING := Accum(map[], map[], [])

  // ---- What a delta belongs to ----

  /** The id last seen on an index. */
  function LastID(ds: seq<Delta>, index: int): string {
    if ds == [] then ""
    else
      var d := ds[|ds| - 1];
      if d.index == index && d.id != "" then d.id else LastID(ds[..|ds| - 1], index)
  }

  /** The call a delta belongs to: its own id, or the one last seen on its index. Without
      either it is dropped. */
  function Resolve(before: seq<Delta>, d: Delta): string {
    if d.id != "" then d.id else LastID(before, d.index)
  }

  /** All argument fragments of a call, in order. */
  function ArgsOf(ds: seq<Delta>, id: string): string {
    if ds == [] then ""
    else
      var front, d := ds[..|ds| - 1], ds[|ds| - 1];
      ArgsOf(front, id) + if Resolve(front, d) == id then d.args else ""
  }

  /** The first name given to a call. */
  function NameOf(ds: seq<Delta>, id: string): string {
    if ds == [] then ""
    else
      var front, d := ds[..|ds| - 1], ds[|ds| - 1];
      if NameOf(front, id) != "" || Resolve(front, d) != id then NameOf(front, id) else d.name
  }

  predicate Seen(ds: seq<Delta>, id: string) {
    exists n :: 0 <= n < |ds| && Resolve(ds[..n], ds[n]) == id
  }

  // ---- The accumulator ----

  function Step(a: Accum, d: Delta): Accum {
    if d.id == "" && d.index !in a.indexToID then a
    else
      var id := if d.id == "" then a.indexToID[d.index] else d.id;
      var indexes := if d.id == "" then a.indexToID else a.indexToID[d.index := d.id];
      var e := if id in a.entries then a.entries[id] else Entry("", "");
      var named := d.name != "" && e.name == "";
      var e1 := if named then e.(name := d.name) else e;
      Accum(a.entries[id := e1.(rawArgs := e1.rawArgs + d.args)], indexes,
            if named then a.calls + [Call(id, d.name)] else a.calls)
  }

  function Accumulate(ds: seq<Delta>): Accum {
    if ds == [] then NOTHING else Step(Accumulate(ds[..|ds| - 1]), ds[|ds| - 1])
  }

  /** The accumulator says of every call what its own deltas say, and has announced every
      named call once. */
  ghost predicate Faithful(a: Accum, ds: seq<Delta>) {
    && (forall index :: index in a.indexToID <==> LastID(ds, index) != "")
    && (forall index :: index in a.indexToID ==> a.indexToID[index] == LastID(ds, index))
    && (forall id :: id != "" ==> Recorded(a, ds, id))
    && "" !in a.entries
    && (forall i :: 0 <= i < |a.calls| ==> Announced(a, a.calls[i]))
    && (forall i, j :: 0 <= i < j < |a.calls| ==> a.calls[i].id != a.calls[j].id)
  }

  ghost predicate Recorded(a: Accum, ds: seq<Delta>, id: string) {
    && (id in a.entries <==> Seen(ds, id))
    && (id in a.entries ==> a.entries[id] == Entry(NameOf(ds, id), ArgsOf(ds, id)))
    && (id !in a.entries ==> NameOf(ds, id) == "" && ArgsOf(ds, id) == "")
    && (NameOf(ds, id) != "" ==> Call(id, NameOf(ds, id)) in a.calls)
  }

  predicate Announced(a: Accum, c: Call) {
    c.name != "" && c.id in a.entries && a.entries[c.id].name == c.name
  }

  lemma StepRecords(a: Accum, ds: seq<Delta>, d: Delta, id: string)
    requires Faithful(a, ds) && id != ""
    ensures Recorded(Step(a, d), ds + [d], id)
  {
    hide LastID, Resolve, Step, Seen, NameOf, ArgsOf;
    assert Recorded(a, ds, id);
    SeenGrows(ds, d, id);
    NameAndArgsGrow(ds, d, id);
    StepTouches(a, ds, d);
  }

  lemma NameAndArgsGrow(ds: seq<Delta>, d: Delta, id: string)
    ensures var es := ds + [d];
            if Resolve(ds, d) == id then
              && ArgsOf(es, id) == ArgsOf(ds, id) + d.args
              && NameOf(es, id) == if NameOf(ds, id) != "" then NameOf(ds, id) else d.name
            else ArgsOf(es, id) == ArgsOf(ds, id) && NameOf(es, id) == NameOf(ds, id)
  {
    hide Resolve;
    assert (ds + [d])[..|ds|] == ds;
    assert ArgsOf(ds, id) + "" == ArgsOf(ds, id);
  }

  /** A step only touches the entry its delta resolves to. */
  lemma StepTouches(a: Accum, ds: seq<Delta>, d: Delta)
    requires Faithful(a, ds)
    ensures var r, b := Resolve(ds, d), Step(a, d);
            if r == "" then b == a
            else
              var e := if r in a.entries then a.entries[r] else Entry("", "");
              var named := d.name != "" && e.name == "";
              && b.entries == a.entries[r := Entry(if named then d.name else e.name, e.rawArgs + d.args)]
              && b.calls == if named then a.calls + [Call(r, d.name)] else a.calls
  {
  }

  lemma SeenGrows(ds: seq<Delta>, d: Delta, id: string)
    ensures Seen(ds + [d], id) <==> Seen(ds, id) || Resolve(ds, d) == id
  {
    hide Resolve;
    var es := ds + [d];
    assert es[..|ds|] == ds && es[|ds|] == d;
    forall n: nat | n < |ds| ensures es[..n] == ds[..n] && es[n] == ds[n] {}
    if Seen(ds, id) {
      var n :| 0 <= n < |ds| && Resolve(ds[..n], ds[n]) == id;
      assert Resolve(es[..n], es[n]) == id;
    }
    if Resolve(ds, d) == id { assert Resolve(es[..|ds|], es[|ds|]) == id; }
  }

  lemma StepIndexes(a: Accum, ds: seq<Delta>, d: Delta, index: int)
    requires Faithful(a, ds)
    ensures index in Step(a, d).indexToID <==> LastID(ds + [d], index) != ""
    ensures index in Step(a, d).indexToID ==> Step(a, d).indexToID[index] == LastID(ds + [d], index)
  {
    assert (ds + [d])[..|ds|] == ds;
  }

  lemma StepAnnounces(a: Accum, ds: seq<Delta>, d: Delta)
    requires Faithful(a, ds)
    ensures var b := Step(a, d);
            && "" !in b.entries
            && (forall i :: 0 <= i < |b.calls| ==> Announced(b, b.calls[i]))
            && (forall i, j :: 0 <= i < j < |b.calls| ==> b.calls[i].id != b.calls[j].id)
  {
    StepTouches(a, ds, d);
    hide LastID, Resolve, Recorded, Step;
    var b, r := Step(a, d), Resolve(ds, d);
    forall i | 0 <= i < |b.calls| ensures Announced(b, b.calls[i]) {
      if i < |a.calls| { assert Announced(a, a.calls[i]); }
    }
    forall i, j | 0 <= i < j < |b.calls| ensures b.calls[i].id != b.calls[j].id {
      assert Announced(a, a.calls[i]);
    }
  }

  lemma StepKeepsFaithful(a: Accum, ds: seq<Delta>, d: Delta)
    requires Faithful(a, ds)
    ensures Faithful(Step(a, d), ds + [d])
  {
    StepAnnounces(a, ds, d);
    forall index
      ensures index in Step(a, d).indexToID <==> LastID(ds + [d], index) != ""
      ensures index in Step(a, d).indexToID ==> Step(a, d).indexToID[index] == LastID(ds + [d], index)
    {
      StepIndexes(a, ds, d, index);
    }
    forall id | id != "" ensures Recorded(Step(a, d), ds + [d], id) {
      StepRecords(a, ds, d, id);
    }
    hide Step, Recorded, Announced, LastID;
  }

  /** For every sequence of deltas, in whatever order they come: each call id has collected
      the fragments resolved to it, in order, its name is the first it was given, and each
      named call was announced exactly once. */
  lemma {:induction false} AccumulatesFaithfully(ds: seq<Delta>)
    ensures Faithful(Accumulate(ds), ds)
  {
    hide Faithful, Step;
    if ds == [] {
      NothingIsFaithful();
    } else {
      var front := ds[..|ds| - 1];
      AccumulatesFaithfully(front);
      StepKeepsFaithful(Accumulate(front), front, ds[|ds| - 1]);
      assert ds == front + [ds[|ds| - 1]];
    }
  }

  lemma NothingIsFaithful()
    ensures Faithful(NOTHING, [])
  {
  }

  // ---- Interleaved calls ----

  /** A tool call the provider streams. */
  datatype Source = Source(id: string, index: int)

  /** A stream that interleaves calls: each delta belongs to a call, carries its index, and
      carries its id unless an earlier delta of the call did. */
  ghost predicate Interleaves(sources: seq<Source>, ds: seq<Delta>, owner: seq<nat>) {
    && |owner| == |ds|
    && (forall n :: 0 <= n < |ds| ==> owner[n] < |sources| && ds[n].index == sources[owner[n]].index)
    && (forall n :: 0 <= n < |ds| ==> ds[n].id == sources[owner[n]].id || (ds[n].id == "" && IsRepeat(owner, n)))
  }

  predicate IsRepeat(owner: seq<nat>, n: nat)
    requires n < |owner|
  {
    exists k :: 0 <= k < n && owner[k] == owner[n]
  }

  ghost predicate DistinctIDs(sources: seq<Source>) {
    && (forall i :: 0 <= i < |sources| ==> sources[i].id != "")
    && (forall i, j :: 0 <= i < j < |sources| ==> sources[i].id != sources[j].id)
  }

  lemma InterleavesFront(sources: seq<Source>, ds: seq<Delta>, owner: seq<nat>)
    requires Interleaves(sources, ds, owner) && ds != []
    ensures Interleaves(sources, ds[..|ds| - 1], owner[..|ds| - 1])
  {
    var n := |ds| - 1;
    forall m: nat | m < n && IsRepeat(owner, m) ensures IsRepeat(owner[..n], m) {
      var k :| 0 <= k < m && owner[k] == owner[m];
      assert owner[..n][k] == owner[..n][m];
    }
  }

  // ---- Which call a delta is routed to ----

  /** Delta k is the last before n on n's index that carries an id. */
  ghost predicate NamesIndex(ds: seq<Delta>, k: nat, n: nat)
    requires n <= |ds|
  {
    k < n && n < |ds| && ds[k].index == ds[n].index && ds[k].id != "" &&
    forall m :: k < m < n && ds[m].index == ds[n].index ==> ds[m].id == ""
  }

  lemma {:induction false} LastIDAt(ds: seq<Delta>, index: int) returns (k: int)
    ensures -1 <= k < |ds|
    ensures k == -1 ==> LastID(ds, index) == "" && forall m :: 0 <= m < |ds| && ds[m].index == index ==> ds[m].id == ""
    ensures k >= 0 ==> ds[k].index == index && ds[k].id != "" && LastID(ds, index) == ds[k].id
    ensures forall m :: k < m < |ds| && ds[m].index == index && 0 <= m ==> ds[m].id == ""
  {
    if ds == [] {
      k := -1;
    } else {
      var n := |ds| - 1;
      if ds[n].index == index && ds[n].id != "" {
        k := n;
      } else {
        k := LastIDAt(ds[..n], index);
      }
    }
  }

  /** The delta that decides where an id-less one goes, if there is one. */
  lemma NamingDelta(ds: seq<Delta>, n: nat) returns (k: int)
    requires n < |ds|
    ensures -1 <= k < n
    ensures k >= 0 ==> NamesIndex(ds, k, n) && LastID(ds[..n], ds[n].index) == ds[k].id
    ensures k == -1 ==> LastID(ds[..n], ds[n].index) == "" && forall m :: 0 <= m < n && ds[m].index == ds[n].index ==> ds[m].id == ""
  {
    k := LastIDAt(ds[..n], ds[n].index);
    assert forall m :: 0 <= m < n ==> ds[..n][m] == ds[m];
  }

  /** The delta carries an id, or the last one before it on its index that did belongs to
      the same call. */
  ghost predicate RightlyRouted(ds: seq<Delta>, owner: seq<nat>, n: nat)
    requires |owner| == |ds| && n < |ds|
  {
    ds[n].id != "" || exists k: nat :: NamesIndex(ds, k, n) && owner[k] == owner[n]
  }

  /** Calls may share indexes: a delta reaches its own call if and only if it is rightly
      routed. */
  lemma RoutedIff(sources: seq<Source>, ds: seq<Delta>, owner: seq<nat>, n: nat)
    requires Interleaves(sources, ds, owner) && DistinctIDs(sources) && n < |ds|
    ensures |owner| == |ds| && owner[n] < |sources|
    ensures Resolve(ds[..n], ds[n]) == sources[owner[n]].id <==> RightlyRouted(ds, owner, n)
  {
    IDsAreOwners(sources, ds, owner, n);
    if ds[n].id == "" {
      var k := NamingDelta(ds, n);
      if k >= 0 { IDsAreOwners(sources, ds, owner, k); }
      hide LastID, Interleaves;
      assert forall x: nat :: NamesIndex(ds, x, n) ==> k == x;
    }
  }

  lemma IDsAreOwners(sources: seq<Source>, ds: seq<Delta>, owner: seq<nat>, n: nat)
    requires Interleaves(sources, ds, owner) && DistinctIDs(sources) && n < |ds|
    ensures |owner| == |ds| && owner[n] < |sources| && sources[owner[n]].id != ""
    ensures ds[n].id != "" ==> ds[n].id == sources[owner[n]].id
  {
  }

  /** On each index, the deltas of a call come in one piece. */
  ghost predicate NoOverlap(ds: seq<Delta>, owner: seq<nat>)
    requires |owner| == |ds|
  {
    forall k, m, n :: 0 <= k <= m <= n < |ds| && owner[k] == owner[n] && ds[m].index == ds[n].index ==> owner[m] == owner[n]
  }

  lemma ResolvesToOwner(sources: seq<Source>, ds: seq<Delta>, owner: seq<nat>)
    requires Interleaves(sources, ds, owner) && DistinctIDs(sources) && NoOverlap(ds, owner) && ds != []
    ensures var n := |ds| - 1; Resolve(ds[..n], ds[n]) == sources[owner[n]].id
  {
    hide *;
    var n := |ds| - 1;
    RoutedIff(sources, ds, owner, n);
    if ds[n].id == "" {
      var first := FirstOf(sources, ds, owner, n);
      var k := NamingDelta(ds, n);
      NamesLater(ds, first, k, n);
      InBetween(ds, owner, first, k, n);
      IsRouted(ds, owner, k, n);
    } else {
      CarriesID(ds, owner, n);
    }
  }

  lemma NamesLater(ds: seq<Delta>, first: nat, k: int, n: nat)
    requires first < n < |ds| && ds[first].index == ds[n].index && ds[first].id != "" && -1 <= k < n
    requires k >= 0 ==> NamesIndex(ds, k, n)
    requires k == -1 ==> forall m :: 0 <= m < n && ds[m].index == ds[n].index ==> ds[m].id == ""
    ensures first <= k && ds[k].index == ds[n].index
  {
  }

  lemma InBetween(ds: seq<Delta>, owner: seq<nat>, k: nat, m: nat, n: nat)
    requires |owner| == |ds| && NoOverlap(ds, owner)
    requires k <= m <= n < |ds| && owner[k] == owner[n] && ds[m].index == ds[n].index
    ensures owner[m] == owner[n]
  {
  }

  lemma IsRouted(ds: seq<Delta>, owner: seq<nat>, k: nat, n: nat)
    requires |owner| == |ds| && n < |ds| && NamesIndex(ds, k, n) && k < n && owner[k] == owner[n]
    ensures RightlyRouted(ds, owner, n)
  {
  }

  lemma CarriesID(ds: seq<Delta>, owner: seq<nat>, n: nat)
    requires |owner| == |ds| && n < |ds| && ds[n].id != ""
    ensures RightlyRouted(ds, owner, n)
  {
  }

  /** The first delta of a call carries its id. */
  lemma {:induction false} FirstOf(sources: seq<Source>, ds: seq<Delta>, owner: seq<nat>, n: nat) returns (k: nat)
    requires Interleaves(sources, ds, owner) && DistinctIDs(sources) && n < |ds|
    ensures k <= n && owner[k] == owner[n] && ds[k].id != "" && ds[k].index == ds[n].index
  {
    if ds[n].id != "" {
      k := n;
    } else {
      var m :| 0 <= m < n && owner[m] == owner[n];
      k := FirstOf(sources, ds, owner, m);
    }
  }

  /** A call's own fragments, in order. */
  function OwnArgs(ds: seq<Delta>, owner: seq<nat>, c: nat): string
    requires |owner| == |ds|
  {
    if ds == [] then ""
    else
      var n := |ds| - 1;
      OwnArgs(ds[..n], owner[..n], c) + if owner[n] == c then ds[n].args else ""
  }

  /** The first name among a call's own deltas. */
  function OwnName(ds: seq<Delta>, owner: seq<nat>, c: nat): string
    requires |owner| == |ds|
  {
    if ds == [] then ""
    else
      var n := |ds| - 1;
      var name := OwnName(ds[..n], owner[..n], c);
      if name != "" || owner[n] != c then name else ds[n].name
  }

  lemma {:induction false} OwnDeltasOnly(sources: seq<Source>, ds: seq<Delta>, owner: seq<nat>, c: nat)
    requires Interleaves(sources, ds, owner) && DistinctIDs(sources) && NoOverlap(ds, owner) && c < |sources|
    ensures ArgsOf(ds, sources[c].id) == OwnArgs(ds, owner, c)
    ensures NameOf(ds, sources[c].id) == OwnName(ds, owner, c)
  {
    hide Resolve, LastID;
    if ds != [] {
      var n := |ds| - 1;
      InterleavesFront(sources, ds, owner);
      assert NoOverlap(ds[..n], owner[..n]);
      OwnDeltasOnly(sources, ds[..n], owner[..n], c);
      ResolvesToOwner(sources, ds, owner);
      assert sources[owner[n]].id == sources[c].id <==> owner[n] == c;
    }
  }

  /** Whatever the interleaving of calls with distinct ids that do not overlap on an index:
      a named call ends up with its own fragments in order and its own name, announced
      exactly once. */
  lemma InterleavingsAreSorted(sources: seq<Source>, ds: seq<Delta>, owner: seq<nat>, c: nat)
    requires Interleaves(sources, ds, owner) && DistinctIDs(sources) && NoOverlap(ds, owner) && c < |sources|
    requires OwnName(ds, owner, c) != ""
    ensures var a, id := Accumulate(ds), sources[c].id;
            && id in a.entries && a.entries[id] == Entry(OwnName(ds, owner, c), OwnArgs(ds, owner, c))
            && Call(id, OwnName(ds, owner, c)) in a.calls
            && forall i, j :: 0 <= i < |a.calls| && 0 <= j < |a.calls| && a.calls[i].id == id && a.calls[j].id == id ==> i == j
  {
    hide Interleaves, DistinctIDs, NoOverlap, OwnName, OwnArgs, NameOf, ArgsOf, Seen, Announced;
    AccumulatesFaithfully(ds);
    assert sources[c].id != "" by { NamedSource(sources, c); }
    assert Recorded(Accumulate(ds), ds, sources[c].id);
    OwnDeltasOnly(sources, ds, owner, c);
  }

  /** Calls with indexes of their own do not overlap. */
  lemma DistinctIndexesDoNotOverlap(sources: seq<Source>, ds: seq<Delta>, owner: seq<nat>)
    requires Interleaves(sources, ds, owner)
    requires forall i, j :: 0 <= i < j < |sources| ==> sources[i].index != sources[j].index
    ensures NoOverlap(ds, owner)
  {
  }

  lemma NamedSource(sources: seq<Source>, c: nat)
    requires DistinctIDs(sources) && c < |sources|
    ensures sources[c].id != ""
  {
  }

  /** When a second call takes over an index, later fragments of the first that carry no id
      go to the second. */
  lemma ReusedIndexMisroutes(a: string, b: string, index: int, late: string)
    requires a != "" && b != "" && a != b
    ensures var ds := [Delta(a, index, "f", ""), Delta(b, index, "g", ""), Delta("", index, "", late)];
            ArgsOf(ds, a) == "" && ArgsOf(ds, b) == late
  {
    var ds := [Delta(a, index, "f", ""), Delta(b, index, "g", ""), Delta("", index, "", late)];
    var two, one := ds[..2], ds[..1];
    assert two == [Delta(a, index, "f", ""), Delta(b, index, "g", "")] && two[..1] == one;
    assert one == [Delta(a, index, "f", "")] && one[..0] == [];
    assert LastID(two, index) == b;
    assert ArgsOf([], a) == "" && ArgsOf([], b) == "";
    assert one[|one| - 1] == Delta(a, index, "f", "") && one[..|one| - 1] == [];
    assert ArgsOf(one, a) == "" && ArgsOf(one, b) == "";
    assert ArgsOf(two, a) == "" && ArgsOf(two, b) == "";
  }

  // ---- The stream loop and the final content ----

  function AllDeltas(chunks: seq<Chunk>): seq<Delta> {
    if chunks == [] then [] else AllDeltas(chunks[..|chunks| - 1]) + chunks[|chunks| - 1].deltas
  }

  function AllText(chunks: seq<Chunk>): string {
    if chunks == [] then ""
    else
      var p := chunks[|chunks| - 1].piece;
      AllText(chunks[..|chunks| - 1]) + if p.Some? && p.value.TextPiece? then p.value.text else ""
  }

  function AllReasoning(chunks: seq<Chunk>): string {
    if chunks == [] then ""
    else
      var p := chunks[|chunks| - 1].piece;
      AllReasoning(chunks[..|chunks| - 1]) + if p.Some? && p.value.ReasoningPiece? then p.value.reasoning else ""
  }

  /** Nothing of a chunk is lost or moved: deltas, text and reasoning of a stream are those of
      its two halves, one behind the other. */
  lemma {:induction false} StreamsJoin(a: seq<Chunk>, b: seq<Chunk>)
    ensures AllDeltas(a + b) == AllDeltas(a) + AllDeltas(b)
    ensures AllText(a + b) == AllText(a) + AllText(b)
    ensures AllReasoning(a + b) == AllReasoning(a) + AllReasoning(b)
  {
    hide *;
    if b == [] {
      NothingStreamed();
      assert a + b == a;
    } else {
      var n := |b| - 1;
      var front, one := b[..n], [b[n]];
      StreamsJoin(a, front);
      assert (a + b)[..|a + b| - 1] == a + front && (a + b)[|a + b| - 1] == b[n];
      OneMoreChunk(a + b);
      OneMoreChunk(b);
      Associates(AllDeltas(a), AllDeltas(front), AllDeltas(one));
      Associates(AllText(a), AllText(front), AllText(one));
      Associates(AllReasoning(a), AllReasoning(front), AllReasoning(one));
    }
  }

  lemma NothingStreamed()
    ensures AllDeltas([]) == [] && AllText([]) == "" && AllReasoning([]) == ""
  {
  }

  lemma Associates<T>(x: seq<T>, y: seq<T>, z: seq<T>)
    ensures (x + y) + z == x + (y + z)
  {
  }

  lemma OneMoreChunk(chunks: seq<Chunk>)
    requires chunks != []
    ensures var front, one := chunks[..|chunks| - 1], [chunks[|chunks| - 1]];
            && AllDeltas(chunks) == AllDeltas(front) + AllDeltas(one)
            && AllText(chunks) == AllText(front) + AllText(one)
            && AllReasoning(chunks) == AllReasoning(front) + AllReasoning(one)
  {
    OneChunk(chunks[|chunks| - 1]);
  }

  lemma OneChunk(c: Chunk)
    ensures AllDeltas([c]) == c.deltas
    ensures AllText([c]) == if c.piece.Some? && c.piece.value.TextPiece? then c.piece.value.text else ""
    ensures AllReasoning([c]) == if c.piece.Some? && c.piece.value.ReasoningPiece? then c.piece.value.reasoning else ""
  {
    assert [c][..0] == [];
  }

  /** The content assembled from details, reasoning and text. */
  function Assemble(details: seq<ToolCall>, reasoning: string, text: string): Content {
    if |details| > 0 && reasoning != "" then Composite([Reasoning(reasoning), ToolCalls(details)])
    else if |details| > 0 then ToolCalls(details)
    else if reasoning != "" && text != "" then Composite([Reasoning(reasoning), Text(text)])
    else if reasoning != "" then Reasoning(reasoning)
    else Text(text)
  }

  /** The details list every named call once, with its arguments parsed. */
  ghost predicate ListsCalls(details: seq<ToolCall>, entries: map<string, Entry>, parse: string -> Any) {
    && (forall i, j :: 0 <= i < j < |details| ==> details[i].id != details[j].id)
    && (forall i :: 0 <= i < |details| ==> details[i].id in entries && IsDetail(details[i], entries, parse))
    && (forall id :: id in entries && entries[id].name != "" ==> exists i :: 0 <= i < |details| && details[i].id == id)
  }

  predicate IsDetail(d: ToolCall, entries: map<string, Entry>, parse: string -> Any)
    requires d.id in entries
  {
    var e := entries[d.id];
    e.name != "" && d == ToolCall(d.id, e.name, if e.rawArgs != "" then parse(e.rawArgs) else parse("null"))
  }

  /** The deltas of one chunk. */
  method AccumulateDeltas(a: Accum, deltas: seq<Delta>, ghost before: seq<Delta>) returns (b: Accum)
    requires a == Accumulate(before)
    ensures b == Accumulate(before + deltas)
  {
    hide Accumulate;
    var entries, indexToID, calls := a.entries, a.indexToID, a.calls;
    assert before + deltas[..0] == before;
    for i := 0 to |deltas|
      invariant Accum(entries, indexToID, calls) == Accumulate(before + deltas[..i])
    {
      var tc := deltas[i];
      ghost var now := Accum(entries, indexToID, calls);
      AccumulatesNext(before, deltas, i);
      var id := tc.id;
      if id == "" {
        if tc.index in indexToID {
          id := indexToID[tc.index];
        } else {
          continue;
        }
      } else {
        indexToID := indexToID[tc.index := id];
      }
      var entry := if id in entries then entries[id] else Entry("", "");
      if tc.name != "" && entry.name == "" {
        entry := entry.(name := tc.name);
        calls := calls + [Call(id, tc.name)];
      }
      if tc.args != "" {
        entry := entry.(rawArgs := entry.rawArgs + tc.args);
      }
      entries := entries[id := entry];
      assert tc.args == "" ==> entry.rawArgs + tc.args == entry.rawArgs;
    }
    assert deltas[..|deltas|] == deltas;
    b := Accum(entries, indexToID, calls);
  }

  lemma AccumulatesNext(before: seq<Delta>, deltas: seq<Delta>, i: nat)
    requires i < |deltas|
    ensures Accumulate(before + deltas[..i + 1]) == Step(Accumulate(before + deltas[..i]), deltas[i])
  {
    hide Step;
    var longer := before + deltas[..i + 1];
    assert longer[..|longer| - 1] == before + deltas[..i];
  }

  /** Collects the named calls, in whatever order the map is walked. */
  method CollectDetails(entries: map<string, Entry>, parse: string -> Any) returns (details: seq<ToolCall>)
    ensures ListsCalls(details, entries, parse)
  {
    details := [];
    var todo := entries.Keys;
    while todo != {}
      invariant todo <= entries.Keys
      invariant forall i, j :: 0 <= i < j < |details| ==> details[i].id != details[j].id
      invariant forall i :: 0 <= i < |details| ==>
                  details[i].id in entries && details[i].id !in todo && IsDetail(details[i], entries, parse)
      invariant forall id :: id in entries && id !in todo && entries[id].name != "" ==>
                  exists i :: 0 <= i < |details| && details[i].id == id
    {
      var id :| id in todo;
      todo := todo - {id};
      var e := entries[id];
      if e.name != "" {
        var args := if e.rawArgs != "" then parse(e.rawArgs) else parse("null");
        ghost var earlier := details;
        details := details + [ToolCall(id, e.name, args)];
        assert details[|earlier|].id == id;
        assert forall i :: 0 <= i < |earlier| ==> details[i] == earlier[i];
      }
    }
  }

  /** The whole stream: the announced calls and the final content. */
  method Stream(chunks: seq<Chunk>, parse: string -> Any)
    returns (content: Content, calls: seq<Call>, ghost details: seq<ToolCall>)
    ensures calls == Accumulate(AllDeltas(chunks)).calls
    ensures ListsCalls(details, Accumulate(AllDeltas(chunks)).entries, parse)
    ensures content == Assemble(details, AllReasoning(chunks), AllText(chunks))
    ensures ListsDeltas(ReactLoop.CallsIn(content), AllDeltas(chunks), parse)
    ensures ReasoningIn(content) == AllReasoning(chunks)
    ensures TextIn(content) == AllText(chunks) <==> AllText(chunks) == "" || !NamesACall(AllDeltas(chunks))
  {
    hide ListsCalls, Step, Accumulate, TextIn, NamesACall, ReasoningIn, ReactLoop.CallsIn, ListsDeltas;
    var text, reasoning := "", "";
    var a := NOTHING;
    EmptyAccumulation();
    for i := 0 to |chunks|
      invariant a == Accumulate(AllDeltas(chunks[..i]))
      invariant text == AllText(chunks[..i]) && reasoning == AllReasoning(chunks[..i])
    {
      assert chunks[..i + 1][..i] == chunks[..i];
      a := AccumulateDeltas(a, chunks[i].deltas, AllDeltas(chunks[..i]));
      match chunks[i].piece {
        case Some(TextPiece(t)) => text := text + t;
        case Some(ReasoningPiece(r)) => reasoning := reasoning + r;
        case _ =>
      }
    }
    assert chunks[..|chunks|] == chunks;
    var collected := CollectDetails(a.entries, parse);
    details := collected;
    calls := a.calls;
    StreamKeepsTextIff(chunks, parse, details);
    ListedAreDeltas(details, AllDeltas(chunks), parse);
    ContentHolds(details, reasoning, text);
    if |collected| > 0 && reasoning != "" {
      content := Composite([Reasoning(reasoning), ToolCalls(collected)]);
    } else if |collected| > 0 {
      content := ToolCalls(collected);
    } else if reasoning != "" && text != "" {
      content := Composite([Reasoning(reasoning), Text(text)]);
    } else if reasoning != "" {
      content := Reasoning(reasoning);
    } else {
      content := Text(text);
    }
  }

  lemma EmptyAccumulation()
    ensures Accumulate([]) == NOTHING
  {
  }

  /** The text a content shows. */
  function TextIn(c: Content): string {
    match c
    case Text(text) => text
    case Composite(parts) => TextInParts(parts)
    case _ => ""
  }

  function TextInParts(parts: seq<Content>): string {
    if parts == [] then "" else (if parts[0].Text? then parts[0].text else "") + TextInParts(parts[1..])
  }

  /** The streamed text reaches the final content exactly when there was none or no tool
      call was named: text beside a tool call is dropped. */
  lemma TextSurvivesIff(details: seq<ToolCall>, reasoning: string, text: string)
    ensures TextIn(Assemble(details, reasoning, text)) == text <==> text == "" || details == []
  {
    var r := Reasoning(reasoning);
    assert [r, Text(text)][1..] == [Text(text)] && [Text(text)][1..] == [];
    assert [r, ToolCalls(details)][1..] == [ToolCalls(details)] && [ToolCalls(details)][1..] == [];
    assert TextInParts([ToolCalls(details)]) == "";
    assert TextInParts([Text(text)]) == text + "";
    assert text + "" == text;
  }

  /** The reasoning a content shows. */
  function ReasoningIn(c: Content): string {
    match c
    case Reasoning(reasoning) => reasoning
    case Composite(parts) => ReasoningInParts(parts)
    case _ => ""
  }

  function ReasoningInParts(parts: seq<Content>): string {
    if parts == [] then "" else (if parts[0].Reasoning? then parts[0].reasoning else "") + ReasoningInParts(parts[1..])
  }

  /** Whatever else was streamed, the content holds all the calls and shows all the reasoning. */
  lemma ContentHolds(details: seq<ToolCall>, reasoning: string, text: string)
    ensures ReactLoop.CallsIn(Assemble(details, reasoning, text)) == details
    ensures ReasoningIn(Assemble(details, reasoning, text)) == reasoning
  {
    PairHolds(reasoning, ToolCalls(details));
    PairHolds(reasoning, Text(text));
  }

  lemma PairHolds(reasoning: string, c: Content)
    requires c.ToolCalls? || c.Text?
    ensures ReasoningIn(Composite([Reasoning(reasoning), c])) == reasoning
    ensures ReactLoop.CallsIn(Composite([Reasoning(reasoning), c])) == if c.ToolCalls? then c.details else []
  {
    var r := Reasoning(reasoning);
    assert [r, c][1..] == [c] && [c][1..] == [];
    assert ReasoningInParts([c]) == "";
    assert [r, c][..1] == [r] && [r][..0] == [];
    assert ReactLoop.CallsInParts([r]) == [];
    assert reasoning + "" == reasoning;
  }

  /** The named calls of the deltas, each once, with its first name and with all its argument
      fragments, in order, parsed. */
  ghost predicate ListsDeltas(calls: seq<ToolCall>, ds: seq<Delta>, parse: string -> Any) {
    && (forall i, j :: 0 <= i < j < |calls| ==> calls[i].id != calls[j].id)
    && (forall id :: id != "" && NameOf(ds, id) != "" <==> exists i :: 0 <= i < |calls| && calls[i].id == id)
    && (forall i :: 0 <= i < |calls| ==>
          calls[i] == ToolCall(calls[i].id, NameOf(ds, calls[i].id),
                               parse(if ArgsOf(ds, calls[i].id) == "" then "null" else ArgsOf(ds, calls[i].id))))
  }

  lemma ListedAreDeltas(details: seq<ToolCall>, ds: seq<Delta>, parse: string -> Any)
    requires ListsCalls(details, Accumulate(ds).entries, parse)
    ensures ListsDeltas(details, ds, parse)
  {
    AccumulatesFaithfully(ds);
    var a := Accumulate(ds);
    hide Accumulate, Resolve, NameOf, ArgsOf, Seen, Announced;
    forall i | 0 <= i < |details| ensures details[i].id != "" && Recorded(a, ds, details[i].id) {}
    forall id | id != "" && NameOf(ds, id) != "" ensures exists i :: 0 <= i < |details| && details[i].id == id {
      assert Recorded(a, ds, id);
    }
  }

  /** From the deltas to the tool: of a reply assembled from an interleaving of calls that do
      not overlap on an index, every named call is in the reply once, with its own name and
      its own fragments parsed, and the reply's tool message holds what the tool makes of
      it. */
  lemma StreamedCallIsExecuted(sources: seq<Source>, ds: seq<Delta>, owner: seq<nat>, c: nat, parse: string -> Any,
                               t: ReactLoop.Turn) returns (n: nat)
    requires Interleaves(sources, ds, owner) && DistinctIDs(sources) && NoOverlap(ds, owner) && c < |sources|
    requires OwnName(ds, owner, c) != ""
    requires t.Reply? && ListsDeltas(ReactLoop.CallsIn(t.message.content), ds, parse)
    ensures |owner| == |ds|
    ensures var calls, answer := ReactLoop.CallsIn(t.message.content), ReactLoop.Answer(t).content;
            var call := ToolCall(sources[c].id, OwnName(ds, owner, c),
                                 parse(if OwnArgs(ds, owner, c) == "" then "null" else OwnArgs(ds, owner, c)));
            && n < |calls| && calls[n] == call && (forall m :: 0 <= m < |calls| && calls[m].id == call.id ==> m == n)
            && answer.ToolResults? && |answer.results| == |calls| && answer.results[n] == t.tool(call)
  {
    assert |owner| == |ds|;
    hide Interleaves, NoOverlap, OwnName, OwnArgs, NameOf, ArgsOf, ReactLoop.CallsIn;
    OwnDeltasOnly(sources, ds, owner, c);
    NamedSource(sources, c);
    var calls := ReactLoop.CallsIn(t.message.content);
    n :| 0 <= n < |calls| && calls[n].id == sources[c].id;
  }

  /** The n-th delta gives a name to a call it belongs to. */
  predicate NamesAt(ds: seq<Delta>, n: nat)
    requires n < |ds|
  {
    ds[n].name != "" && Resolve(ds[..n], ds[n]) != ""
  }

  ghost predicate NamesACall(ds: seq<Delta>) {
    exists n: nat :: n < |ds| && NamesAt(ds, n)
  }

  lemma {:induction false} NamedByADelta(ds: seq<Delta>, id: string) returns (n: nat)
    requires NameOf(ds, id) != ""
    ensures n < |ds| && ds[n].name != "" && Resolve(ds[..n], ds[n]) == id
  {
    hide Resolve;
    n := |ds| - 1;
    if NameOf(ds[..n], id) != "" {
      var m := NamedByADelta(ds[..n], id);
      assert ds[..n][..m] == ds[..m];
      n := m;
    }
  }

  lemma {:induction false} DeltaNames(ds: seq<Delta>, n: nat)
    requires n < |ds| && ds[n].name != ""
    ensures NameOf(ds, Resolve(ds[..n], ds[n])) != ""
  {
    hide Resolve;
    var last := |ds| - 1;
    if n < last {
      DeltaNames(ds[..last], n);
      assert ds[..last][..n] == ds[..n];
    }
  }

  /** No call is listed exactly when no delta named one. */
  lemma NothingListedIff(details: seq<ToolCall>, ds: seq<Delta>, parse: string -> Any)
    requires ListsCalls(details, Accumulate(ds).entries, parse)
    ensures details == [] <==> !NamesACall(ds)
  {
    AccumulatesFaithfully(ds);
    var a := Accumulate(ds);
    hide Accumulate, Resolve, NameOf, ArgsOf, Seen, Announced;
    if details != [] {
      var id := details[0].id;
      assert Recorded(a, ds, id);
      var n := NamedByADelta(ds, id);
      assert NamesAt(ds, n);
    }
    if n: nat :| n < |ds| && NamesAt(ds, n) {
      var id := Resolve(ds[..n], ds[n]);
      DeltaNames(ds, n);
      assert Recorded(a, ds, id);
    }
  }

  /** Over a whole stream: its text reaches the content exactly when there was none or no
      delta of any chunk named a call. */
  lemma StreamKeepsTextIff(chunks: seq<Chunk>, parse: string -> Any, details: seq<ToolCall>)
    requires ListsCalls(details, Accumulate(AllDeltas(chunks)).entries, parse)
    ensures TextIn(Assemble(details, AllReasoning(chunks), AllText(chunks))) == AllText(chunks) <==>
              AllText(chunks) == "" || !NamesACall(AllDeltas(chunks))
  {
    NothingListedIff(details, AllDeltas(chunks), parse);
    hide *;
    TextSurvivesIff(details, AllReasoning(chunks), AllText(chunks));
  }
}
