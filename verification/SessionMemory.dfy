/** Session history with compression: a snapshot is taken, the lock is released for the slow
    summary call, and the result is merged with whatever was appended meanwhile. */
module SessionMemory {
  import opened Options

  /** A compression under way: the messages handed to the summarizer and those kept. */
  datatype Snap<M> = Snap(older: seq<M>, recent: seq<M>) {
    function All(): seq<M> { older + recent }
  }

  /** The session, the compressions in flight, and a record of every message ever appended
      and of those whose summary was stored, in order. */
  datatype State<M> = State(history: seq<M>, summary: string, flights: map<nat, Snap<M>>,
                            log: seq<M>, summarized: seq<M>)

  datatype Event<M> =
    | Append(messages: seq<M>)
    | Begin(id: nat, keepLastN: nat, minToCompress: int)
    | Fail(id: nat)
    | Commit(id: nat, newSummary: string)

  /** The first part of Compress: None when there is too little to compress. */
  function TakeSnapshot<M>(history: seq<M>, keepLastN: nat, minToCompress: int): (r: Option<Snap<M>>)
    ensures r.Some? ==> r.value.All() == history && |r.value.recent| == keepLastN
  {
    if |history| <= keepLastN || |history| - keepLastN < minToCompress then None
    else
      var splitAt := |history| - keepLastN;
      Some(Snap(history[..splitAt], history[splitAt..]))
  }

  /** The last part of Compress: the kept messages and what was appended since. */
  function Merge<M>(snap: Snap<M>, history: seq<M>): seq<M> {
    var total := |snap.All()|;
    snap.recent + if |history| > total then history[total..] else []
  }

  predicate Enabled<M>(s: State<M>, e: Event<M>) {
    match e
    case Append(_) => true
    case Begin(id, _, _) => id !in s.flights
    case Fail(id) => id in s.flights
    case Commit(id, _) => id in s.flights
  }

  function Apply<M>(s: State<M>, e: Event<M>): State<M>
    requires Enabled(s, e)
  {
    match e
    case Append(messages) => s.(history := s.history + messages, log := s.log + messages)
    case Begin(id, keepLastN, minToCompress) =>
      var snap := TakeSnapshot(s.history, keepLastN, minToCompress);
      if snap.None? then s else s.(flights := s.flights[id := snap.value])
    case Fail(id) => s.(flights := s.flights - {id})
    case Commit(id, newSummary) =>
      var snap := s.flights[id];
      s.(history := Merge(snap, s.history), summary := newSummary, flights := s.flights - {id},
         summarized := s.summarized + snap.older)
  }

  /** The state after a run; events that are not enabled are skipped. */
  function Run<M>(events: seq<Event<M>>): State<M> {
    if events == [] then State([], "", map[], [], [])
    else
      var s, e := Run(events[..|events| - 1]), events[|events| - 1];
      if Enabled(s, e) then Apply(s, e) else s
  }

  // ---- Nothing is lost ----

  /** Every message ever appended is in the history or was summarized, in order. */
  predicate NothingLost<M(==)>(s: State<M>) {
    s.log == s.summarized + s.history
  }

  /** A snapshot still describes the front of the history. */
  predicate Current<M(==)>(s: State<M>, id: nat)
    requires id in s.flights
  {
    s.flights[id].All() <= s.history
  }

  lemma MergeKeepsFront<M>(snap: Snap<M>, history: seq<M>)
    ensures snap.All() <= history ==> snap.older + Merge(snap, history) == history
    ensures snap.older + Merge(snap, history) == history ==> snap.All() <= history
  {
    var total := |snap.All()|;
    if |history| > total {
      assert snap.older + (snap.recent + history[total..]) == snap.All() + history[total..];
      assert (snap.All() + history[total..])[..total] == snap.All();
      assert history == history[..total] + history[total..];
    } else {
      assert snap.recent + [] == snap.recent;
      assert snap.older + snap.recent == snap.All();
      if snap.All() <= history { assert snap.All() == history; }
    }
  }

  /** Storing a summary loses or doubles nothing exactly when its snapshot still is the
      front of the history. */
  lemma CommitLosesNothingIff<M>(s: State<M>, id: nat, newSummary: string)
    requires id in s.flights && NothingLost(s)
    ensures NothingLost(Apply(s, Commit(id, newSummary))) <==> Current(s, id)
  {
    var snap := s.flights[id];
    var merged := Merge(snap, s.history);
    MergeKeepsFront(snap, s.history);
    hide Merge;
    assert (s.summarized + snap.older) + merged == s.summarized + (snap.older + merged);
    assert s.log[|s.summarized|..] == s.history;
    assert (s.summarized + (snap.older + merged))[|s.summarized|..] == snap.older + merged;
  }

  /** The run holds at most one compression in flight at a time. */
  predicate OneAtATime<M>(events: seq<Event<M>>) {
    events == [] ||
    (var front, e := events[..|events| - 1], events[|events| - 1];
     OneAtATime(front) && (e.Begin? ==> Run(front).flights == map[]))
  }

  ghost predicate Good<M>(s: State<M>) {
    && NothingLost(s)
    && (forall id, other :: id in s.flights && other in s.flights ==> id == other)
    && (forall id :: id in s.flights ==> Current(s, id))
  }

  lemma StepKeepsGood<M>(s: State<M>, e: Event<M>)
    requires Good(s) && Enabled(s, e) && (e.Begin? ==> s.flights == map[])
    ensures Good(Apply(s, e))
  {
    hide Merge, TakeSnapshot;
    match e
    case Append(messages) =>
      assert s.summarized + s.history + messages == s.summarized + (s.history + messages);
    case Begin(_, _, _) =>
    case Fail(_) =>
    case Commit(id, newSummary) =>
      CommitLosesNothingIff(s, id, newSummary);
  }

  /** With one compression in flight at a time, whatever is appended meanwhile, every
      message is summarized or still in the history, in order. */
  lemma {:induction false} CompressionLosesNothing<M>(events: seq<Event<M>>)
    requires OneAtATime(events)
    ensures Good(Run(events))
  {
    hide Good, Apply, Enabled;
    if events == [] {
      NothingYet<M>();
    } else {
      var front, e := events[..|events| - 1], events[|events| - 1];
      CompressionLosesNothing(front);
      if Enabled(Run(front), e) { StepKeepsGood(Run(front), e); }
    }
  }

  lemma NothingYet<M>()
    ensures Good(Run<M>([]))
  {
  }

  /** Appends made while a compression is in flight. */
  function Appended<M>(events: seq<Event<M>>): seq<M> {
    if events == [] then []
    else
      var e := events[|events| - 1];
      Appended(events[..|events| - 1]) + if e.Append? then e.messages else []
  }

  function RunFrom<M>(s: State<M>, events: seq<Event<M>>): State<M> {
    if events == [] then s
    else
      var t, e := RunFrom(s, events[..|events| - 1]), events[|events| - 1];
      if Enabled(t, e) then Apply(t, e) else t
  }

  lemma {:induction false} AppendsGrowHistory<M>(s: State<M>, events: seq<Event<M>>)
    requires forall i :: 0 <= i < |events| ==> events[i].Append?
    ensures RunFrom(s, events) == s.(history := s.history + Appended(events), log := s.log + Appended(events))
  {
    if events == [] {
      assert s.history + [] == s.history && s.log + [] == s.log;
    } else {
      var front, e := events[..|events| - 1], events[|events| - 1];
      AppendsGrowHistory(s, front);
      assert s.history + Appended(front) + e.messages == s.history + (Appended(front) + e.messages);
      assert s.log + Appended(front) + e.messages == s.log + (Appended(front) + e.messages);
    }
  }

  /** After a compression the history is the last messages of the snapshot and everything
      appended while the summary was being written, and the summary covers the rest. */
  lemma CompressionKeepsTail<M>(s: State<M>, id: nat, keepLastN: nat, minToCompress: int,
                                meanwhile: seq<Event<M>>, newSummary: string)
    requires id !in s.flights && |s.history| > keepLastN && |s.history| - keepLastN >= minToCompress
    requires forall i :: 0 <= i < |meanwhile| ==> meanwhile[i].Append?
    ensures var t := RunFrom(Apply(s, Begin(id, keepLastN, minToCompress)), meanwhile);
            var splitAt := |s.history| - keepLastN;
            && Enabled(t, Commit(id, newSummary))
            && var u := Apply(t, Commit(id, newSummary));
               && u.history == s.history[splitAt..] + Appended(meanwhile)
               && u.summarized == s.summarized + s.history[..splitAt]
               && u.summary == newSummary && u.log == s.log + Appended(meanwhile)
  {
    var started := Apply(s, Begin(id, keepLastN, minToCompress));
    AppendsGrowHistory(started, meanwhile);
    var t := RunFrom(started, meanwhile);
    hide RunFrom, Appended;
    assert t.history[|s.history|..] == Appended(meanwhile);
    var recent := s.history[|s.history| - keepLastN..];
    assert recent + [] == recent;
  }

  /** A compression whose summary fails leaves everything as it is, with what was appended
      meanwhile. */
  lemma FailureChangesNothing<M>(s: State<M>, id: nat, keepLastN: nat, minToCompress: int, meanwhile: seq<Event<M>>)
    requires id !in s.flights && |s.history| > keepLastN && |s.history| - keepLastN >= minToCompress
    requires forall i :: 0 <= i < |meanwhile| ==> meanwhile[i].Append?
    ensures var t := RunFrom(Apply(s, Begin(id, keepLastN, minToCompress)), meanwhile);
            && Enabled(t, Fail(id))
            && Apply(t, Fail(id)) == State(s.history + Appended(meanwhile), s.summary, s.flights, s.log + Appended(meanwhile),
                                           s.summarized)
  {
    var started := Apply(s, Begin(id, keepLastN, minToCompress));
    AppendsGrowHistory(started, meanwhile);
    hide RunFrom, Appended;
    assert started.flights - {id} == s.flights;
  }

  /** Two compressions in flight can lose a message: it is neither summarized nor kept. */
  lemma OverlapLosesMessage<M>(a: M, b: M, c: M, d: M, s1: string, s2: string)
    requires d != a && d != b && d != c
    ensures var s := Run([Append([a, b, c]), Begin(0, 1, 0), Begin(1, 1, 0), Append([d]), Commit(0, s1)]);
            && NothingLost(s) && 1 in s.flights && !Current(s, 1)
            && var t := Apply(s, Commit(1, s2));
               t.log == [a, b, c, d] && d !in t.summarized && d !in t.history
  {
    var es: seq<Event<M>> := [Append([a, b, c]), Begin(0, 1, 0), Begin(1, 1, 0), Append([d]), Commit(0, s1)];
    FrontOf(es, 4);
    FrontOf(es, 3);
    FrontOf(es, 2);
    FrontOf(es, 1);
    FrontOf(es, 0);
    assert es[..5] == es;
    var snap := Snap([a, b], [c]);
    TwoSnapshots(a, b, c, d);
    FirstCommit(a, b, c, d, s1);
    hide Run, Apply;
    assert Run<M>([]) == State([], "", map[], [], []) by { EmptyRun<M>(); }
    SecondCommit(a, b, c, d, s1, s2);
  }

  lemma EmptyRun<M>()
    ensures Run<M>([]) == State([], "", map[], [], [])
  {
  }

  lemma TwoSnapshots<M>(a: M, b: M, c: M, d: M)
    ensures var h, snap := [a, b, c], Snap([a, b], [c]);
            && Apply(State([], "", map[], [], []), Append(h)) == State(h, "", map[], h, [])
            && Apply(State(h, "", map[], h, []), Begin(0, 1, 0)) == State(h, "", map[0 := snap], h, [])
            && Apply(State(h, "", map[0 := snap], h, []), Begin(1, 1, 0)) == State(h, "", map[0 := snap, 1 := snap], h, [])
            && Apply(State(h, "", map[0 := snap, 1 := snap], h, []), Append([d])) ==
                 State([a, b, c, d], "", map[0 := snap, 1 := snap], [a, b, c, d], [])
  {
    var h := [a, b, c];
    assert h[..2] == [a, b] && h[2..] == [c] && [] + h == h && h + [d] == [a, b, c, d];
  }

  lemma FirstCommit<M>(a: M, b: M, c: M, d: M, s1: string)
    ensures var snap, l := Snap([a, b], [c]), [a, b, c, d];
            Apply(State(l, "", map[0 := snap, 1 := snap], l, []), Commit(0, s1)) ==
              State([c, d], s1, map[1 := snap], l, [a, b])
  {
    var snap, l := Snap([a, b], [c]), [a, b, c, d];
    assert l[3..] == [d] && [c] + [d] == [c, d] && [] + [a, b] == [a, b];
    assert map[0 := snap, 1 := snap] - {0} == map[1 := snap];
  }

  lemma SecondCommit<M>(a: M, b: M, c: M, d: M, s1: string, s2: string)
    requires d != a && d != b && d != c
    ensures var snap, l := Snap([a, b], [c]), [a, b, c, d];
            var s := State([c, d], s1, map[1 := snap], l, [a, b]);
            && NothingLost(s) && !Current(s, 1)
            && Apply(s, Commit(1, s2)) == State([c], s2, map[], l, [a, b, a, b])
  {
    var snap := Snap([a, b], [c]);
    assert map[1 := snap] - {1} == map[];
    assert [c] + [] == [c] && [a, b] + [a, b] == [a, b, a, b] && [a, b] + [c, d] == [a, b, c, d];
  }

  lemma FrontOf<M>(events: seq<Event<M>>, n: nat)
    requires n < |events|
    ensures var s := Run(events[..n]);
            Run(events[..n + 1]) == if Enabled(s, events[n]) then Apply(s, events[n]) else s
    ensures events[..0] == []
  {
    hide Apply, Enabled;
    assert events[..n + 1][..n] == events[..n];
  }

  // ---- The session as an object ----

  class Session<M(==)> {
    var history: seq<M>
    var summary: string
    ghost var log: seq<M>
    ghost var summarized: seq<M>

    /** The session between compressions. */
    ghost function Value(): State<M>
      reads this
    {
      State(history, summary, map[], log, summarized)
    }

    constructor ()
      ensures Value() == Run<M>([])
    {
      history, summary, log, summarized := [], "", [], [];
    }

    method AppendMessages(messages: seq<M>)
      modifies this
      ensures Value() == Apply(old(Value()), Append(messages))
    {
      history := history + messages;
      log := log + messages;
    }

    /** What the model is shown: the summary, if any, as a system message, and the history. */
    method GetHistoryMessages(system: string -> M) returns (shown: seq<M>)
      ensures shown == (if summary == "" then [] else [system(summary)]) + history
    {
      if summary == "" { return history; }
      shown := [];
      shown := shown + [system(summary)];
      shown := shown + history;
    }

    /** Others append while the lock is free. */
    method AppendMeanwhile(meanwhile: seq<seq<M>>)
      modifies this`history, this`log
      ensures history == old(history) + Appended(Appends(meanwhile)) && log == old(log) + Appended(Appends(meanwhile))
    {
      ghost var es := Appends(meanwhile);
      NothingAppended(es);
      hide Appended;
      for i := 0 to |meanwhile|
        invariant history == old(history) + Appended(es[..i]) && log == old(log) + Appended(es[..i])
      {
        OneMoreAppended(es, i);
        history := history + meanwhile[i];
        log := log + meanwhile[i];
      }
      assert es[..|es|] == es;
    }

    /** Compress, with the messages others append while the lock is free. The summarizer
        may fail. */
    method Compress(keepLastN: nat, minToCompress: int, meanwhile: seq<seq<M>>, reply: Option<string>) returns (called: bool)
      modifies this
      ensures called <==> |old(history)| > keepLastN && |old(history)| - keepLastN >= minToCompress
      ensures !called ==> Value() == old(Value())
      ensures called ==>
                var t := RunFrom(Apply(old(Value()), Begin(0, keepLastN, minToCompress)), Appends(meanwhile));
                && Enabled(t, if reply.Some? then Commit(0, reply.value) else Fail(0))
                && Value() == Apply(t, if reply.Some? then Commit(0, reply.value) else Fail(0))
      ensures called ==> summary == if reply.Some? then reply.value else old(summary)
    {
      var total := |history|;
      SnapshotIff(history, keepLastN, minToCompress);
      hide Apply, Enabled, RunFrom, TakeSnapshot, Appended, Appends;
      if total <= keepLastN { return false; }
      var splitAt := total - keepLastN;
      var before, recent := history[..splitAt], history[splitAt..];
      if |before| < minToCompress { return false; }
      BeginIs(Value(), keepLastN, minToCompress);
      ghost var flights := map[0 := Snap(before, recent)];
      AppendsGrowHistory(Value().(flights := flights), Appends(meanwhile));
      AppendMeanwhile(meanwhile);
      EndIs(Value().(flights := flights), Snap(before, recent), if reply.Some? then reply.value else "");
      if reply.None? { return true; }
      summary := reply.value;
      summarized := summarized + before;
      if |history| - total > 0 {
        recent := recent + history[total..];
      }
      history := recent;
      return true;
    }
  }

  lemma SnapshotIff<M>(history: seq<M>, keepLastN: nat, minToCompress: int)
    ensures TakeSnapshot(history, keepLastN, minToCompress).Some? <==>
              |history| > keepLastN && |history| - keepLastN >= minToCompress
  {
  }

  lemma BeginIs<M>(s: State<M>, keepLastN: nat, minToCompress: int)
    requires s.flights == map[] && |s.history| > keepLastN && |s.history| - keepLastN >= minToCompress
    ensures var splitAt := |s.history| - keepLastN;
            && Enabled(s, Begin(0, keepLastN, minToCompress))
            && Apply(s, Begin(0, keepLastN, minToCompress)) ==
               s.(flights := map[0 := Snap(s.history[..splitAt], s.history[splitAt..])])
  {
  }

  lemma EndIs<M>(t: State<M>, snap: Snap<M>, newSummary: string)
    requires t.flights == map[0 := snap]
    ensures Enabled(t, Fail(0)) && Enabled(t, Commit(0, newSummary))
    ensures Apply(t, Fail(0)) == t.(flights := map[])
    ensures var total := |snap.older| + |snap.recent|;
            Apply(t, Commit(0, newSummary)) ==
              State(if |t.history| > total then snap.recent + t.history[total..] else snap.recent,
                    newSummary, map[], t.log, t.summarized + snap.older)
  {
    assert t.flights - {0} == map[];
    assert snap.recent + [] == snap.recent;
  }

  lemma NothingAppended<M>(es: seq<Event<M>>)
    ensures Appended(es[..0]) == []
  {
  }

  lemma OneMoreAppended<M>(es: seq<Event<M>>, i: nat)
    requires i < |es| && es[i].Append?
    ensures Appended(es[..i + 1]) == Appended(es[..i]) + es[i].messages
  {
    assert es[..i + 1][..i] == es[..i];
  }

  function Appends<M>(messages: seq<seq<M>>): (es: seq<Event<M>>)
    ensures |es| == |messages| && forall i :: 0 <= i < |es| ==> es[i] == Append(messages[i])
  {
    seq(|messages|, i requires 0 <= i < |messages| => Append(messages[i]))
  }
}
