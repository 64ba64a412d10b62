/** Session files: one JSON event per line, written whole or appended to, and the session
    that is saved to and loaded from them. */
module SessionFile {
  import opened Options
  import opened Messages

  // ---- Lines of JSON ----

  /** encoding/json on events: encode writes one, decode takes one off the front of a text. */
  datatype Codec<!E> = Codec(encode: E -> string, decode: string -> Option<(E, string)>)

  /** Decoding takes the encoded event off the front of a text that ends there or goes on on
      the next line; it is not empty, starts with a character More accepts and does not end a
      line. */
  ghost predicate ReadsBack<E>(c: Codec<E>, e: E) {
    && (forall rest :: rest == "" || rest[0] == '\n' ==> c.decode(c.encode(e) + rest) == Some((e, rest)))
    && c.encode(e) != "" && SkipSpace(c.encode(e)) == c.encode(e) && More(c.encode(e))
    && c.encode(e)[|c.encode(e)| - 1] != '\n'
  }

  /** All that is asked of the codec for one file. */
  ghost predicate ReadsAll<E>(c: Codec<E>, events: seq<E>) {
    forall i :: 0 <= i < |events| ==> ReadsBack(c, events[i])
  }

  /** For the events of any one file there is such a codec. */
  lemma SomeCodecReads<E(!new)>(events: seq<E>) returns (c: Codec<E>)
    ensures ReadsAll(c, events)
  {
    c := Codec(e => Tally(IndexIn(events, e)),
               s => var n := Marks(s); if 0 < n <= |events| then Some((events[n - 1], s[n..])) else None);
    forall i | 0 <= i < |events| ensures ReadsBack(c, events[i]) {
      var line := Tally(IndexIn(events, events[i]));
      assert c.encode(events[i]) == line && line[0] == 'x';
      forall rest: string | rest == "" || rest[0] == '\n'
        ensures c.decode(line + rest) == Some((events[i], rest))
      {
        TallyIsRead(line, rest);
        assert (line + rest)[|line|..] == rest;
      }
    }
  }

  ghost function IndexIn<E>(events: seq<E>, e: E): (i: nat)
    ensures i <= |events| && (e in events ==> i < |events| && events[i] == e)
  {
    if events == [] || events[0] == e then 0 else 1 + IndexIn(events[1..], e)
  }

  function Tally(n: nat): (s: string)
    ensures |s| == n + 1 && forall i :: 0 <= i < |s| ==> s[i] == 'x'
  {
    seq(n + 1, _ => 'x')
  }

  function Marks(s: string): (n: nat)
    ensures n <= |s|
  {
    if s == "" || s[0] != 'x' then 0 else 1 + Marks(s[1..])
  }

  lemma {:induction false} TallyIsRead(line: string, rest: string)
    requires (forall i :: 0 <= i < |line| ==> line[i] == 'x') && (rest == "" || rest[0] == '\n')
    ensures Marks(line + rest) == |line|
  {
    if line == "" {
      assert line + rest == rest;
    } else {
      assert (line + rest)[1..] == line[1..] + rest;
      TallyIsRead(line[1..], rest);
    }
  }

  /** White space between JSON values. */
  predicate IsBlank(c: char) { c == ' ' || c == '\t' || c == '\r' || c == '\n' }

  function SkipSpace(s: string): (r: string)
    ensures |r| <= |s| && (r != "" ==> !IsBlank(r[0]))
  {
    if s != "" && IsBlank(s[0]) then SkipSpace(s[1..]) else s
  }

  /** The decoder's More, past white space: there is something and it closes nothing. */
  predicate More(rest: string) { rest != "" && rest[0] != ']' && rest[0] != '}' }

  /** The events of a file up to its end or a stray closing bracket, or None when something
      before that is not an event. */
  function ReadEvents<E>(c: Codec<E>, data: string): Option<seq<E>>
    decreases |data|
  {
    var rest := SkipSpace(data);
    if !More(rest) then Some([])
    else
      var r := c.decode(rest);
      if r.None? || |r.value.1| >= |rest| then None
      else
        var tail := ReadEvents(c, r.value.1);
        if tail.None? then None else Some([r.value.0] + tail.value)
  }

  function Lines<E>(c: Codec<E>, events: seq<E>): string {
    if events == [] then "" else c.encode(events[0]) + "\n" + Lines(c, events[1..])
  }

  method ReadAll<E>(c: Codec<E>, data: string) returns (events: Option<seq<E>>)
    ensures events == ReadEvents(c, data)
  {
    var acc: seq<E> := [];
    var rest := SkipSpace(data);
    SkippedTwice(c, data);
    ghost var whole := ReadEvents(c, rest);
    if whole.Some? { assert acc + whole.value == whole.value; }
    while More(rest)
      invariant rest == SkipSpace(rest)
      invariant ReadEvents(c, data) == var tail := ReadEvents(c, rest); if tail.None? then None else Some(acc + tail.value)
      decreases |rest|
    {
      var r := c.decode(rest);
      if r.None? || |r.value.1| >= |rest| { return None; }
      ghost var tail := ReadEvents(c, SkipSpace(r.value.1));
      SkippedTwice(c, r.value.1);
      if tail.Some? { assert acc + ([r.value.0] + tail.value) == (acc + [r.value.0]) + tail.value; }
      acc := acc + [r.value.0];
      rest := SkipSpace(r.value.1);
    }
    NothingToRead(c, rest);
    assert acc + [] == acc;
    return Some(acc);
  }

  lemma NothingToRead<E>(c: Codec<E>, rest: string)
    requires !More(SkipSpace(rest))
    ensures ReadEvents(c, rest) == Some([])
  {
  }

  lemma SkippedTwice<E>(c: Codec<E>, s: string)
    ensures SkipSpace(SkipSpace(s)) == SkipSpace(s)
    ensures ReadEvents(c, SkipSpace(s)) == ReadEvents(c, s)
  {
    SkipIsIdempotent(s);
  }

  lemma {:induction false} SkipIsIdempotent(s: string)
    ensures SkipSpace(SkipSpace(s)) == SkipSpace(s)
  {
    if s != "" && IsBlank(s[0]) { SkipIsIdempotent(s[1..]); }
  }

  method WriteAll<E>(c: Codec<E>, events: seq<E>) returns (data: string)
    ensures data == Lines(c, events)
  {
    data := "";
    for i := 0 to |events|
      invariant Lines(c, events) == data + Lines(c, events[i..])
    {
      assert events[i..][1..] == events[i + 1..];
      var line := c.encode(events[i]) + "\n";
      assert data + (line + Lines(c, events[i + 1..])) == (data + line) + Lines(c, events[i + 1..]);
      data := data + line;
    }
  }

  /** Append puts events on lines of their own behind what the file holds. */
  method Append<E>(c: Codec<E>, existing: string, events: seq<E>) returns (all: string)
    ensures all == Terminated(existing) + Lines(c, events)
  {
    all := "";
    if |existing| > 0 {
      all := existing;
      if all[|all| - 1] != '\n' { all := all + "\n"; }
    }
    ghost var start := all;
    assert start == Terminated(existing);
    for i := 0 to |events|
      invariant start + Lines(c, events) == all + Lines(c, events[i..])
    {
      assert events[i..][1..] == events[i + 1..];
      var line := c.encode(events[i]) + "\n";
      assert all + (line + Lines(c, events[i + 1..])) == (all + line) + Lines(c, events[i + 1..]);
      all := all + line;
    }
    assert all + "" == all;
  }

  function Terminated(s: string): string {
    if s == "" || s[|s| - 1] == '\n' then s else s + "\n"
  }

  /** An encoded event at the front of a text is read first. */
  lemma ReadsFirst<E>(c: Codec<E>, e: E, rest: string)
    requires ReadsBack(c, e) && (rest == "" || rest[0] == '\n')
    ensures ReadEvents(c, c.encode(e) + rest) ==
              var tail := ReadEvents(c, rest); if tail.None? then None else Some([e] + tail.value)
  {
    var text := c.encode(e) + rest;
    assert SkipSpace(c.encode(e)) == c.encode(e) && text[0] == c.encode(e)[0];
    assert SkipSpace(text) == text;
    assert c.decode(text) == Some((e, rest));
  }

  lemma NewlineIsSkipped<E>(c: Codec<E>, rest: string)
    ensures ReadEvents(c, "\n" + rest) == ReadEvents(c, rest)
  {
    assert ("\n" + rest)[1..] == rest;
  }

  /** Reading stops at the same point whether the last line is terminated or not, and
      appended events follow those already in the file. */
  lemma {:induction false} AppendedAreRead<E>(c: Codec<E>, before: seq<E>, terminated: bool, events: seq<E>)
    requires ReadsAll(c, before) && ReadsAll(c, events) && (before == [] ==> terminated)
    ensures var file := if terminated then Lines(c, before)
                        else Lines(c, before[..|before| - 1]) + c.encode(before[|before| - 1]);
            ReadEvents(c, file) == Some(before) && ReadEvents(c, Terminated(file) + Lines(c, events)) == Some(before + events)
  {
    hide *;
    ReadsBoth(c, before, events);
    LinesJoin(c, before, events);
    ReadsLines(c, before + events);
    if terminated {
      ReadsLines(c, before);
      LinesAreTerminated(c, before);
    } else {
      var front, last := before[..|before| - 1], before[|before| - 1];
      assert before == front + [last];
      ReadsLast(c, before);
      EndsWithoutNewline(c, last);
      LastLine(c, front, last);
      UnterminatedReads(c, front, last);
    }
  }

  lemma ReadsBoth<E>(c: Codec<E>, a: seq<E>, b: seq<E>)
    requires ReadsAll(c, a) && ReadsAll(c, b)
    ensures ReadsAll(c, a + b)
  {
    hide ReadsBack;
  }

  lemma ReadsLast<E>(c: Codec<E>, events: seq<E>)
    requires ReadsAll(c, events) && events != []
    ensures ReadsAll(c, events[..|events| - 1]) && ReadsBack(c, events[|events| - 1])
  {
    hide ReadsBack;
  }

  lemma LastLine<E>(c: Codec<E>, front: seq<E>, last: E)
    requires c.encode(last) != "" && c.encode(last)[|c.encode(last)| - 1] != '\n'
    ensures Terminated(Lines(c, front) + c.encode(last)) == Lines(c, front + [last])
  {
    hide Lines;
    LinesJoin(c, front, [last]);
    OneLine(c, last);
    var file := Lines(c, front) + c.encode(last);
    assert file[|file| - 1] == c.encode(last)[|c.encode(last)| - 1];
    assert Lines(c, front) + (c.encode(last) + "\n") == file + "\n";
  }

  lemma OneLine<E>(c: Codec<E>, e: E)
    ensures Lines(c, [e]) == c.encode(e) + "\n"
  {
    assert [e][1..] == [];
  }

  lemma {:induction false} LinesAreTerminated<E>(c: Codec<E>, events: seq<E>)
    ensures Terminated(Lines(c, events)) == Lines(c, events)
  {
    if events != [] {
      LinesAreTerminated(c, events[1..]);
      var rest := Lines(c, events[1..]);
      var all := Lines(c, events);
      assert all == (c.encode(events[0]) + "\n") + rest;
      if rest == "" { assert all == c.encode(events[0]) + "\n"; } else { assert all[|all| - 1] == rest[|rest| - 1]; }
    }
  }

  lemma EndsWithoutNewline<E>(c: Codec<E>, e: E)
    requires ReadsBack(c, e)
    ensures c.encode(e) != "" && c.encode(e)[|c.encode(e)| - 1] != '\n'
  {
  }

  lemma {:induction false} LinesJoin<E>(c: Codec<E>, a: seq<E>, b: seq<E>)
    ensures Lines(c, a + b) == Lines(c, a) + Lines(c, b)
  {
    if a == [] {
      assert a + b == b;
    } else {
      assert (a + b)[1..] == a[1..] + b;
      LinesJoin(c, a[1..], b);
      var line := c.encode(a[0]) + "\n";
      assert line + (Lines(c, a[1..]) + Lines(c, b)) == (line + Lines(c, a[1..])) + Lines(c, b);
    }
  }

  /** Written events are read in order, whatever follows them in the file. */
  lemma {:induction false} LinesThen<E>(c: Codec<E>, events: seq<E>, rest: string)
    requires ReadsAll(c, events)
    ensures ReadEvents(c, Lines(c, events) + rest) ==
              var tail := ReadEvents(c, rest); if tail.None? then None else Some(events + tail.value)
    decreases |events|
  {
    hide ReadsBack, ReadEvents;
    var tail := ReadEvents(c, rest);
    if events == [] {
      assert Lines(c, events) + rest == rest;
      if tail.Some? { assert events + tail.value == tail.value; }
    } else {
      var after := Lines(c, events[1..]) + rest;
      LinesThen(c, events[1..], rest);
      NewlineIsSkipped(c, after);
      assert Lines(c, events) + rest == c.encode(events[0]) + ("\n" + after);
      assert ReadsBack(c, events[0]);
      ReadsFirst(c, events[0], "\n" + after);
      if tail.Some? { assert [events[0]] + (events[1..] + tail.value) == events + tail.value; }
    }
  }

  lemma ReadsLines<E>(c: Codec<E>, events: seq<E>)
    requires ReadsAll(c, events)
    ensures ReadEvents(c, Lines(c, events)) == Some(events)
  {
    hide ReadsBack, ReadEvents, Lines;
    LinesThen(c, events, "");
    NothingToRead(c, "");
    assert Lines(c, events) + "" == Lines(c, events) && events + [] == events;
  }

  lemma UnterminatedReads<E>(c: Codec<E>, front: seq<E>, last: E)
    requires ReadsAll(c, front) && ReadsBack(c, last)
    ensures ReadEvents(c, Lines(c, front) + c.encode(last)) == Some(front + [last])
  {
    hide ReadsBack, ReadEvents, Lines;
    ReadsFirst(c, last, "");
    NothingToRead(c, "");
    assert c.encode(last) + "" == c.encode(last) && [last] + [] == [last];
    LinesThen(c, front, c.encode(last));
  }

  /** Behind written events, reading ends with exactly those, and no error, if and only if
      what follows is blank or, past white space, starts with a closing bracket. */
  lemma StopsBehindEventsIff<E>(c: Codec<E>, before: seq<E>, rest: string)
    requires ReadsAll(c, before)
    ensures ReadEvents(c, Lines(c, before) + rest) == Some(before) <==> !More(SkipSpace(rest))
  {
    hide ReadsBack, Lines;
    LinesThen(c, before, rest);
    var tail := ReadEvents(c, rest);
    NothingOrMore(c, rest);
    if tail.Some? {
      assert |before + tail.value| == |before| + |tail.value|;
      assert before + [] == before;
    }
  }

  lemma NothingOrMore<E>(c: Codec<E>, rest: string)
    ensures ReadEvents(c, rest) == Some([]) <==> !More(SkipSpace(rest))
  {
  }

  /** So where something follows, it is dropped without an error exactly when it starts with
      a closing bracket. */
  lemma RestIsDroppedIff<E>(c: Codec<E>, before: seq<E>, rest: string)
    requires ReadsAll(c, before) && SkipSpace(rest) != ""
    ensures ReadEvents(c, Lines(c, before) + rest) == Some(before) <==> SkipSpace(rest)[0] in "]}"
  {
    hide ReadsBack, ReadEvents, Lines, SkipSpace;
    StopsBehindEventsIff(c, before, rest);
  }

  /** A line that starts with a closing bracket ends the reading without an error: neither
      it nor the events after it are reported. */
  lemma BracketHidesTheRest<E>(c: Codec<E>, before: seq<E>, rest: string)
    requires ReadsAll(c, before) && SkipSpace(rest) != "" && SkipSpace(rest)[0] in "]}"
    ensures ReadEvents(c, Lines(c, before) + rest) == Some(before)
  {
    hide ReadsBack, ReadEvents, Lines, SkipSpace;
    RestIsDroppedIff(c, before, rest);
  }

  // ---- Sessions ----

  /** What an event carries. Init and summary payloads are objects with one string; Garbage
      is JSON that fits neither target type. */
  datatype Payload = SessionID(id: string) | Summary(summary: string) | Stored(message: MessageJSON) | Garbage

  datatype Event = Event(typ: string, payload: Payload)

  function SessionEvents(sessionID: string, summary: string, messages: seq<Message>): seq<Event> {
    [Event("init", SessionID(sessionID))]
    + (if summary != "" then [Event("summary", Summary(summary))] else [])
    + MessageEvents(messages)
  }

  function MessageEvents(messages: seq<Message>): (es: seq<Event>)
    ensures |es| == |messages|
  {
    seq(|messages|, i requires 0 <= i < |messages| => Event("msg", Stored(MarshalMessage(messages[i]))))
  }

  datatype Session = Session(summary: string, messages: seq<Message>)

  /** The summary of a payload decoded as a summary object, whose field may be absent. */
  function SummaryOf(p: Payload): Result<string> {
    match p
    case Summary(summary) => Ok(summary)
    case Garbage => Err
    case _ => Ok("")
  }

  function MessageOf(p: Payload): Result<Message> {
    match p
    case Stored(message) => UnmarshalMessage(message)
    case Garbage => Err
    case _ => Ok(Message("", "", Nil, "", None))
  }

  /** One event while loading. */
  function LoadEvent(s: Session, e: Event): Result<Session> {
    match e.typ
    case "summary" => var r := SummaryOf(e.payload); if r.Err? then Err else Ok(s.(summary := r.value))
    case "msg" => var r := MessageOf(e.payload); if r.Err? then Err else Ok(s.(messages := s.messages + [r.value]))
    case _ => Ok(s)
  }

  function LoadEvents(s: Session, events: seq<Event>): Result<Session> {
    if events == [] then Ok(s)
    else
      var before := LoadEvents(s, events[..|events| - 1]);
      if before.Err? then Err else LoadEvent(before.value, events[|events| - 1])
  }

  method SaveSession(c: Codec<Event>, sessionID: string, summary: string, messages: seq<Message>) returns (data: string)
    ensures data == Lines(c, SessionEvents(sessionID, summary, messages))
  {
    var events := [Event("init", SessionID(sessionID))];
    if summary != "" {
      events := events + [Event("summary", Summary(summary))];
    }
    ghost var head := events;
    for i := 0 to |messages|
      invariant events == head + MessageEvents(messages[..i])
    {
      events := events + [Event("msg", Stored(MarshalMessage(messages[i])))];
    }
    assert messages[..|messages|] == messages;
    assert head + MessageEvents(messages) == SessionEvents(sessionID, summary, messages);
    data := WriteAll(c, events);
  }

  /** Loading: None when the file is not made of events or some event is malformed. */
  method LoadSession(c: Codec<Event>, data: string) returns (session: Option<Session>)
    ensures session == Loaded(c, data)
  {
    var events := ReadAll(c, data);
    if events.None? { return None; }
    hide LoadEvent;
    var summary, messages := "", [];
    for i := 0 to |events.value|
      invariant LoadEvents(Session("", []), events.value[..i]) == Ok(Session(summary, messages))
    {
      var evt := events.value[i];
      assert events.value[..i + 1][..i] == events.value[..i];
      OneEvent(Session(summary, messages), evt);
      match evt.typ {
        case "summary" =>
          var s := SummaryOf(evt.payload);
          if s.Err? {
            ErrorStays(Session("", []), events.value, i + 1);
            return None;
          }
          summary := s.value;
        case "msg" =>
          var m := MessageOf(evt.payload);
          if m.Err? {
            ErrorStays(Session("", []), events.value, i + 1);
            return None;
          }
          messages := messages + [m.value];
        case _ =>
      }
    }
    assert events.value[..|events.value|] == events.value;
    return Some(Session(summary, messages));
  }

  lemma OneEvent(s: Session, e: Event)
    ensures e.typ == "summary" ==>
              LoadEvent(s, e) == var r := SummaryOf(e.payload); if r.Err? then Err else Ok(s.(summary := r.value))
    ensures e.typ == "msg" ==>
              LoadEvent(s, e) == var r := MessageOf(e.payload); if r.Err? then Err else Ok(s.(messages := s.messages + [r.value]))
    ensures e.typ != "summary" && e.typ != "msg" ==> LoadEvent(s, e) == Ok(s)
  {
  }

  lemma {:induction false} ErrorStays(s: Session, events: seq<Event>, n: nat)
    requires n <= |events| && LoadEvents(s, events[..n]).Err?
    ensures LoadEvents(s, events).Err?
    decreases |events| - n
  {
    hide LoadEvent;
    if n == |events| {
      assert events[..n] == events;
    } else {
      assert events[..n + 1][..n] == events[..n];
      ErrorStays(s, events, n + 1);
    }
  }

  function Loaded(c: Codec<Event>, data: string): Option<Session> {
    var events := ReadEvents(c, data);
    if events.None? then None
    else
      var r := LoadEvents(Session("", []), events.value);
      if r.Err? then None else Some(r.value)
  }

  function StripAll(messages: seq<Message>): (r: seq<Message>)
    ensures |r| == |messages|
  {
    seq(|messages|, i requires 0 <= i < |messages| => StripMessage(messages[i]))
  }

  lemma {:induction false} MessagesLoad(s: Session, head: seq<Event>, messages: seq<Message>)
    requires LoadEvents(Session("", []), head) == Ok(s)
    ensures LoadEvents(Session("", []), head + MessageEvents(messages)) == Ok(s.(messages := s.messages + StripAll(messages)))
  {
    hide LoadEvents, LoadEvent, StripMessage;
    if messages == [] {
      assert head + MessageEvents(messages) == head;
      assert s.messages + StripAll(messages) == s.messages;
    } else {
      var front, m := messages[..|messages| - 1], messages[|messages| - 1];
      MessagesLoad(s, head, front);
      var e := Event("msg", Stored(MarshalMessage(m)));
      assert head + MessageEvents(messages) == (head + MessageEvents(front)) + [e];
      LastEvent(Session("", []), head + MessageEvents(front), e);
      StoredLoads(s.(messages := s.messages + StripAll(front)), m);
      assert s.messages + StripAll(front) + [StripMessage(m)] == s.messages + StripAll(messages);
    }
  }

  lemma LastEvent(s: Session, before: seq<Event>, e: Event)
    ensures LoadEvents(s, before + [e]) == var r := LoadEvents(s, before); if r.Err? then Err else LoadEvent(r.value, e)
  {
    hide LoadEvent;
    assert (before + [e])[..|before|] == before;
  }

  lemma StoredLoads(s: Session, m: Message)
    ensures LoadEvent(s, Event("msg", Stored(MarshalMessage(m)))) == Ok(s.(messages := s.messages + [StripMessage(m)]))
  {
    MessageRoundTrip(m);
  }

  /** Saving a session and loading it gives the same summary and the same messages, in
      order, without embedded media data. */
  lemma SessionRoundTrip(c: Codec<Event>, sessionID: string, summary: string, messages: seq<Message>)
    requires ReadsAll(c, SessionEvents(sessionID, summary, messages))
    ensures Loaded(c, Lines(c, SessionEvents(sessionID, summary, messages))) == Some(Session(summary, StripAll(messages)))
  {
    ReadsLines(c, SessionEvents(sessionID, summary, messages));
    hide ReadsBack, MessageEvents, Lines, ReadEvents;
    var init, sum := Event("init", SessionID(sessionID)), Event("summary", Summary(summary));
    var head := [init] + if summary != "" then [sum] else [];
    HeadLoads(init, sum);
    MessagesLoad(Session(summary, []), head, messages);
    assert [] + StripAll(messages) == StripAll(messages);
  }

  lemma HeadLoads(init: Event, sum: Event)
    requires init.typ == "init" && sum.typ == "summary" && sum.payload.Summary?
    ensures LoadEvents(Session("", []), [init] + []) == Ok(Session("", []))
    ensures LoadEvents(Session("", []), [init] + [sum]) == Ok(Session(sum.payload.summary, []))
  {
    assert [init] + [] == [init];
    assert [init][..0] == [];
    assert ([init] + [sum])[..1] == [init];
  }

  /** What a file of a session that went on holds: appended messages come behind the saved
      ones, and an appended summary takes the saved one's place. */
  lemma SessionGoesOn(c: Codec<Event>, sessionID: string, summary: string, messages: seq<Message>, later: string, more: seq<Message>)
    requires ReadsAll(c, SessionEvents(sessionID, summary, messages) + [Event("summary", Summary(later))] + MessageEvents(more))
    ensures Loaded(c, Lines(c, SessionEvents(sessionID, summary, messages) + [Event("summary", Summary(later))] + MessageEvents(more)))
            == Some(Session(later, StripAll(messages) + StripAll(more)))
  {
    hide ReadsBack, MessageEvents, Lines, ReadEvents;
    var init, sum, next := Event("init", SessionID(sessionID)), Event("summary", Summary(summary)), Event("summary", Summary(later));
    var head := [init] + if summary != "" then [sum] else [];
    ReadsLines(c, head + MessageEvents(messages) + [next] + MessageEvents(more));
    HeadLoads(init, sum);
    MessagesLoad(Session(summary, []), head, messages);
    assert [] + StripAll(messages) == StripAll(messages);
    LastEvent(Session("", []), head + MessageEvents(messages), next);
    MessagesLoad(Session(later, StripAll(messages)), head + MessageEvents(messages) + [next], more);
  }

  /** An event of a kind that is read, with a payload that does not fit it. */
  predicate IsBad(e: Event) {
    (e.typ == "summary" && SummaryOf(e.payload).Err?) || (e.typ == "msg" && MessageOf(e.payload).Err?)
  }

  /** Loading fails exactly on such an event; events of other kinds are passed over. */
  lemma {:induction false} LoadFailsIff(s: Session, events: seq<Event>)
    ensures LoadEvents(s, events).Err? <==> exists i :: 0 <= i < |events| && IsBad(events[i])
  {
    hide SummaryOf, MessageOf;
    if events != [] {
      var n := |events| - 1;
      LoadFailsIff(s, events[..n]);
      if i :| 0 <= i < n && IsBad(events[i]) { assert IsBad(events[..n][i]); }
    }
  }

  lemma PassedOver(s: Session, e: Event)
    requires e.typ != "summary" && e.typ != "msg"
    ensures LoadEvents(s, [e]) == Ok(s)
  {
    assert [e][..0] == [];
  }
}
