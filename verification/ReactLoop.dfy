/** The ReAct loop: the model is asked, its tool calls are executed and their results are fed
    back, until it answers without calls or something stops the loop. */
module ReactLoop {
  import opened Options
  import opened Messages

  const ASSISTANT := "assistant"
  const TOOL := "tool"

  /** What happens in one iteration: an abort or cancellation before the model is asked, a
      provider error, or a reply, the behaviour of its tools, the observer's verdict, and
      which results end the loop early. */
  datatype Turn =
    | Interrupted(err: bool)
    | ProviderFails
    | Reply(message: Message, tool: ToolCall -> ToolResult, toolMessageID: string, goOn: bool, ends: ToolResult -> bool)

  datatype Prompt = Prompt(messages: seq<Message>, tools: seq<string>)

  datatype Outcome = Answered | Stopped | Cancelled | ModelFailed | MaxSteps

  /** extractToolCalls: composite contents are searched one level deep. */
  function CallsIn(c: Content): seq<ToolCall> {
    match c
    case ToolCalls(details) => details
    case Composite(parts) => CallsInParts(parts)
    case _ => []
  }

  function CallsInParts(parts: seq<Content>): seq<ToolCall> {
    if parts == [] then []
    else CallsInParts(parts[..|parts| - 1]) +
         if parts[|parts| - 1].ToolCalls? then parts[|parts| - 1].details else []
  }

  method ExtractToolCalls(c: Content) returns (details: seq<ToolCall>)
    ensures details == CallsIn(c)
  {
    match c {
      case ToolCalls(ds) => return ds;
      case Composite(parts) =>
        details := [];
        for i := 0 to |parts|
          invariant details == CallsInParts(parts[..i])
        {
          assert parts[..i + 1][..i] == parts[..i];
          match parts[i] {
            case ToolCalls(ds) => details := details + ds;
            case _ => assert details + [] == details;
          }
        }
        assert parts[..|parts|] == parts;
      case _ => return [];
    }
  }

  /** The calls of a composite are those of its parts, in order; a part that is itself a
      composite has none. */
  lemma {:induction false} CallsJoin(a: seq<Content>, b: seq<Content>)
    ensures CallsInParts(a + b) == CallsInParts(a) + CallsInParts(b)
  {
    if b == [] {
      assert a + b == a;
    } else {
      var front, last := b[..|b| - 1], b[|b| - 1];
      CallsJoin(a, front);
      CallsAndOneMore(a + b);
      CallsAndOneMore(b);
      assert (a + b)[..|a + b| - 1] == a + front;
      var one := if last.ToolCalls? then last.details else [];
      hide CallsInParts;
      assert (CallsInParts(a) + CallsInParts(front)) + one == CallsInParts(a) + (CallsInParts(front) + one);
    }
  }

  lemma CallsAndOneMore(parts: seq<Content>)
    requires parts != []
    ensures var last := parts[|parts| - 1];
            CallsInParts(parts) == CallsInParts(parts[..|parts| - 1]) + if last.ToolCalls? then last.details else []
  {
  }

  lemma CallsOfOne(c: Content)
    ensures CallsInParts([c]) == if c.ToolCalls? then CallsIn(c) else []
  {
    assert [c][..0] == [];
  }

  // ---- Paired transcripts ----

  /** The tool message for a reply: the result of each call, in order. */
  function Answer(t: Turn): Message
    requires t.Reply?
  {
    Message(t.toolMessageID, TOOL, ToolResults(Results(CallsIn(t.message.content), t.tool)), "", None)
  }

  function Results(calls: seq<ToolCall>, tool: ToolCall -> ToolResult): (r: seq<ToolResult>)
    ensures |r| == |calls|
  {
    seq(|calls|, i requires 0 <= i < |calls| => tool(calls[i]))
  }

  /** The replies of the first turns, each with its tool message. */
  function Rounds(world: seq<Turn>, k: nat): (ms: seq<Message>)
    requires k <= |world| && forall i :: 0 <= i < k ==> world[i].Reply?
    ensures |ms| == 2 * k
  {
    if k == 0 then [] else Rounds(world, k - 1) + [world[k - 1].message, Answer(world[k - 1])]
  }

  predicate AnsweredAt(ms: seq<Message>, i: nat)
    requires i < |ms|
  {
    ms[i].role == ASSISTANT && CallsIn(ms[i].content) != [] ==>
      && i + 1 < |ms| && ms[i + 1].role == TOOL && ms[i + 1].content.ToolResults?
      && |ms[i + 1].content.results| == |CallsIn(ms[i].content)|
  }

  /** Every assistant message with tool calls is followed by a message with one result for
      each of them. */
  ghost predicate Paired(ms: seq<Message>) {
    forall i: nat :: i < |ms| ==> AnsweredAt(ms, i)
  }

  predicate Dangling(ms: seq<Message>) {
    ms != [] && ms[|ms| - 1].role == ASSISTANT && CallsIn(ms[|ms| - 1].content) != []
  }

  method StripDanglingToolCalls(ms: seq<Message>) returns (r: seq<Message>)
    ensures r == if Dangling(ms) then ms[..|ms| - 1] else ms
  {
    if |ms| == 0 { return ms; }
    var last := ms[|ms| - 1];
    if last.role != ASSISTANT { return ms; }
    var details := ExtractToolCalls(last.content);
    if |details| > 0 { return ms[..|ms| - 1]; }
    return ms;
  }

  /** A paired transcript has nothing to strip. */
  lemma PairedIsNotDangling(ms: seq<Message>)
    requires Paired(ms)
    ensures !Dangling(ms)
  {
    if ms != [] { assert AnsweredAt(ms, |ms| - 1); }
  }

  lemma RoundKeepsPaired(ms: seq<Message>, t: Turn)
    requires Paired(ms) && t.Reply?
    ensures Paired(ms + [t.message, Answer(t)])
  {
    hide CallsIn;
    var longer := ms + [t.message, Answer(t)];
    forall i: nat | i < |longer| ensures AnsweredAt(longer, i) {
      if i < |ms| {
        assert AnsweredAt(ms, i);
        assert i + 1 < |ms| ==> longer[i + 1] == ms[i + 1];
      }
    }
  }

  lemma LastKeepsPaired(ms: seq<Message>, m: Message)
    requires Paired(ms) && CallsIn(m.content) == []
    ensures Paired(ms + [m])
  {
    hide CallsIn;
    var longer := ms + [m];
    forall i: nat | i < |longer| ensures AnsweredAt(longer, i) {
      if i < |ms| {
        assert AnsweredAt(ms, i);
        assert i + 1 < |ms| ==> longer[i + 1] == ms[i + 1];
      }
    }
  }

  // ---- The agent ----

  /** The tool definitions a whitelist lets through, in their order. */
  function Allowed(definitions: seq<string>, names: Option<seq<string>>): seq<string> {
    if names.None? then definitions
    else if definitions == [] then []
    else
      var last := definitions[|definitions| - 1];
      Allowed(definitions[..|definitions| - 1], names) + if last in names.value then [last] else []
  }

  /** Without a whitelist every tool is offered, otherwise exactly those it names; leaving some
      out does not move the others. */
  lemma {:induction false} AllowedIff(definitions: seq<string>, names: Option<seq<string>>, tool: string)
    ensures tool in Allowed(definitions, names) <==> tool in definitions && (names.Some? ==> tool in names.value)
  {
    if definitions != [] && names.Some? {
      var front := definitions[..|definitions| - 1];
      AllowedIff(front, names, tool);
      assert definitions == front + [definitions[|definitions| - 1]];
    }
  }

  lemma {:induction false} AllowedJoins(a: seq<string>, b: seq<string>, names: Option<seq<string>>)
    ensures Allowed(a + b, names) == Allowed(a, names) + Allowed(b, names)
  {
    if b == [] {
      assert a + b == a;
    } else if names.Some? {
      var front := b[..|b| - 1];
      AllowedJoins(a, front, names);
      assert (a + b)[..|a + b| - 1] == a + front;
    }
  }

  class ReactAgent {
    const definitions: seq<string>
    const maxSteps: int
    var toolNames: Option<seq<string>>
    var visibleCache: Option<seq<string>>
    var stepCount: nat

    /** The cache holds what the whitelist lets through. */
    ghost predicate Valid()
      reads this
    {
      visibleCache.Some? && toolNames.Some? ==> visibleCache.value == Allowed(definitions, toolNames)
    }

    constructor (definitions: seq<string>, maxSteps: int)
      ensures this.definitions == definitions && this.maxSteps == maxSteps && Valid() && toolNames.None?
    {
      this.definitions, this.maxSteps := definitions, maxSteps;
      toolNames, visibleCache, stepCount := None, None, 0;
    }

    method WithTools(names: seq<string>)
      modifies this`toolNames, this`visibleCache
      ensures Valid() && toolNames == if names == [] then None else Some(names)
    {
      visibleCache := None;
      toolNames := if |names| == 0 then None else Some(names);
    }

    method VisibleTools() returns (visible: seq<string>)
      requires Valid()
      modifies this`visibleCache
      ensures Valid() && visible == Allowed(definitions, toolNames)
    {
      if toolNames.None? { return definitions; }
      if visibleCache.Some? { return visibleCache.value; }
      visible := [];
      for i := 0 to |definitions|
        invariant visible == Allowed(definitions[..i], toolNames)
      {
        assert definitions[..i + 1][..i] == definitions[..i];
        if definitions[i] in toolNames.value { visible := visible + [definitions[i]]; }
      }
      assert definitions[..|definitions|] == definitions;
      visibleCache := Some(visible);
    }

    method ExecuteTools(details: seq<ToolCall>, tool: ToolCall -> ToolResult) returns (results: seq<ToolResult>)
      ensures results == Results(details, tool)
    {
      results := [];
      for i := 0 to |details|
        invariant |results| == i && forall j :: 0 <= j < i ==> results[j] == tool(details[j])
      {
        results := results + [tool(details[i])];
      }
      assert results == Results(details, tool);
    }

    /** The loop, for every world; a world that has come to its end is a cancellation. */
    method ExecuteWithTools(system: Message, user: seq<Message>, tools: Option<seq<string>>, world: seq<Turn>)
      returns (transcript: seq<Message>, outcome: Outcome, ghost prompts: seq<Prompt>, ghost rounds: nat)
      requires Valid()
      requires forall i :: 0 <= i < |world| && world[i].Reply? ==> world[i].message.role == ASSISTANT
      modifies this
      ensures Valid() && toolNames == old(toolNames)
      ensures Paired(transcript)
      ensures Ran(this, system, user, world, if tools.Some? then tools else old(toolNames), transcript, outcome, prompts, rounds)
    {
      var originalTools, originalCache := toolNames, visibleCache;
      if tools.Some? {
        toolNames, visibleCache := tools, None;
      }
      transcript, outcome, prompts, rounds := RunLoop(system, user, world);
      if tools.Some? {
        toolNames, visibleCache := originalTools, originalCache;
      }
    }

    /** Executes a reply's calls; the observer or a terminating tool may end the loop. */
    method CompleteRound(t: Turn, details: seq<ToolCall>) returns (toolMsg: Message, goOn: bool)
      requires t.Reply? && details == CallsIn(t.message.content)
      ensures toolMsg == Answer(t) && goOn == GoesOn(t)
    {
      var results := ExecuteTools(details, t.tool);
      toolMsg := Message(t.toolMessageID, TOOL, ToolResults(results), "", None);
      goOn := t.goOn && !EarlyEnd(results, t.ends);
    }

    method RunLoop(system: Message, user: seq<Message>, world: seq<Turn>)
      returns (transcript: seq<Message>, outcome: Outcome, ghost prompts: seq<Prompt>, ghost rounds: nat)
      requires Valid()
      requires forall i :: 0 <= i < |world| && world[i].Reply? ==> world[i].message.role == ASSISTANT
      modifies this`visibleCache, this`stepCount
      ensures Valid()
      ensures Paired(transcript)
      ensures Ran(this, system, user, world, toolNames, transcript, outcome, prompts, rounds)
    {
      hide Paired, CallsIn, Allowed, Results, AnsweredAt, EarlyEnd, Answer, GoesOn, Underway, Ran;
      var input := [system] + user;
      transcript, prompts := [], [];
      stepCount := 0;
      NothingIsPaired();
      NothingUnderway(this, system, user, world, toolNames);
      var k := 0;
      while true
        invariant 0 <= k <= |world| && k == stepCount
        invariant Valid() && Paired(transcript)
        invariant Underway(this, system, user, world, toolNames, k, transcript, input, prompts)
        decreases |world| - k
      {
        stepCount := stepCount + 1;
        PairedIsNotDangling(transcript);
        ghost var names := toolNames;
        if maxSteps > 0 && stepCount > maxSteps {
          var kept := StripDanglingToolCalls(transcript);
          EndsUnasked(this, system, user, world, names, k, transcript, input, prompts, MaxSteps);
          return kept, MaxSteps, prompts, k;
        }
        if k == |world| || world[k].Interrupted? {
          var kept := StripDanglingToolCalls(transcript);
          var outcome := if k < |world| && !world[k].err then Stopped else Cancelled;
          EndsUnasked(this, system, user, world, names, k, transcript, input, prompts, outcome);
          return kept, outcome, prompts, k;
        }
        var visible := VisibleTools();
        ghost var before := prompts;
        prompts := prompts + [Prompt(input, visible)];
        if world[k].ProviderFails? {
          EndsAsked(this, system, user, world, names, k, transcript, input, before);
          return transcript, ModelFailed, prompts, k;
        }
        var message := world[k].message;
        var details := ExtractToolCalls(message.content);
        if |details| == 0 {
          LastKeepsPaired(transcript, message);
          EndsAsked(this, system, user, world, names, k, transcript, input, before);
          return transcript + [message], Answered, prompts, k;
        }
        var toolMsg, goOn := CompleteRound(world[k], details);
        RoundKeepsPaired(transcript, world[k]);
        RoundDone(this, system, user, world, names, k, transcript, input, before);
        input := input + [message, toolMsg];
        transcript := transcript + [message, toolMsg];
        k := k + 1;
        if !goOn { return transcript, Stopped, prompts, k; }
      }
    }
  }

  /** The loop's variables between two iterations. */
  ghost predicate Underway(a: ReactAgent, system: Message, user: seq<Message>, world: seq<Turn>, names: Option<seq<string>>,
                           k: nat, transcript: seq<Message>, input: seq<Message>, prompts: seq<Prompt>)
  {
    && Rounded(world, k) && (k > 0 ==> GoesOn(world[k - 1])) && (a.maxSteps > 0 ==> k <= a.maxSteps)
    && transcript == Rounds(world, k) && input == [system] + user + transcript
    && |prompts| == k && (forall n :: 0 <= n < k ==> prompts[n] == Asked(a, system, user, world, names, n))
  }

  lemma NothingUnderway(a: ReactAgent, system: Message, user: seq<Message>, world: seq<Turn>, names: Option<seq<string>>)
    ensures Underway(a, system, user, world, names, 0, [], [system] + user, [])
  {
  }

  lemma EndsUnasked(a: ReactAgent, system: Message, user: seq<Message>, world: seq<Turn>, names: Option<seq<string>>,
                    k: nat, transcript: seq<Message>, input: seq<Message>, prompts: seq<Prompt>, outcome: Outcome)
    requires Underway(a, system, user, world, names, k, transcript, input, prompts)
    requires if a.maxSteps > 0 && k >= a.maxSteps then outcome == MaxSteps
             else if k == |world| then outcome == Cancelled
             else k < |world| && world[k].Interrupted? && outcome == if world[k].err then Cancelled else Stopped
    ensures Ran(a, system, user, world, names, transcript, outcome, prompts, k)
  {
    hide CallsIn, GoesOn, Asked;
    assert Rounds(world, k) + [] == Rounds(world, k);
  }

  lemma EndsAsked(a: ReactAgent, system: Message, user: seq<Message>, world: seq<Turn>, names: Option<seq<string>>,
                  k: nat, transcript: seq<Message>, input: seq<Message>, prompts: seq<Prompt>)
    requires Underway(a, system, user, world, names, k, transcript, input, prompts)
    requires k < |world| && (a.maxSteps > 0 ==> k < a.maxSteps)
    ensures var asked := prompts + [Prompt(input, Allowed(a.definitions, names))];
            && (world[k].ProviderFails? ==> Ran(a, system, user, world, names, transcript, ModelFailed, asked, k))
            && (world[k].Reply? && CallsIn(world[k].message.content) == [] ==>
                  Ran(a, system, user, world, names, transcript + [world[k].message], Answered, asked, k))
  {
    hide CallsIn, GoesOn, Allowed, Rounds;
    assert transcript + [] == transcript;
  }

  lemma RoundDone(a: ReactAgent, system: Message, user: seq<Message>, world: seq<Turn>, names: Option<seq<string>>,
                  k: nat, transcript: seq<Message>, input: seq<Message>, prompts: seq<Prompt>)
    requires Underway(a, system, user, world, names, k, transcript, input, prompts)
    requires k < |world| && (a.maxSteps > 0 ==> k < a.maxSteps)
    requires world[k].Reply? && CallsIn(world[k].message.content) != []
    ensures var pair := [world[k].message, Answer(world[k])];
            var asked := prompts + [Prompt(input, Allowed(a.definitions, names))];
            && (GoesOn(world[k]) ==> Underway(a, system, user, world, names, k + 1, transcript + pair, input + pair, asked))
            && (!GoesOn(world[k]) ==> Ran(a, system, user, world, names, transcript + pair, Stopped, asked, k + 1))
  {
    hide CallsIn, GoesOn, Allowed, Answer;
    var pair := [world[k].message, Answer(world[k])];
    assert [system] + user + (transcript + pair) == input + pair;
    assert Rounds(world, k + 1) == transcript + pair;
    assert transcript + pair + [] == transcript + pair;
  }

  /** What the model is asked in an iteration: the conversation so far and the tools its
      whitelist allows. */
  ghost function Asked(a: ReactAgent, system: Message, user: seq<Message>, world: seq<Turn>,
                       names: Option<seq<string>>, n: nat): Prompt
    requires n <= |world| && forall i :: 0 <= i < n ==> world[i].Reply?
  {
    Prompt([system] + user + Rounds(world, n), Allowed(a.definitions, names))
  }

  /** Neither the observer nor a terminating tool ends the loop after this reply. */
  predicate GoesOn(t: Turn)
    requires t.Reply?
  {
    t.goOn && !EarlyEnd(Results(CallsIn(t.message.content), t.tool), t.ends)
  }

  /** So many rounds of calls took place, and the loop went on after all of them but perhaps
      the last. */
  ghost predicate Rounded(world: seq<Turn>, rounds: nat) {
    && rounds <= |world|
    && (forall i :: 0 <= i < rounds ==> world[i].Reply? && CallsIn(world[i].message.content) != [])
    && (forall i :: 0 <= i < rounds - 1 ==> GoesOn(world[i]))
  }

  /** Why the loop ended after these rounds. */
  ghost predicate Ended(maxSteps: int, world: seq<Turn>, rounds: nat, outcome: Outcome)
    requires Rounded(world, rounds)
  {
    if rounds > 0 && !GoesOn(world[rounds - 1]) then outcome == Stopped
    else if maxSteps > 0 && rounds >= maxSteps then outcome == MaxSteps && rounds == maxSteps
    else if rounds == |world| then outcome == Cancelled
    else
      match world[rounds]
      case Interrupted(err) => outcome == if err then Cancelled else Stopped
      case ProviderFails => outcome == ModelFailed
      case Reply(message, _, _, _, _) => outcome == Answered && CallsIn(message.content) == []
  }

  /** The outcome of a call of the loop that completed this many rounds of calls. */
  ghost predicate Ran(a: ReactAgent, system: Message, user: seq<Message>, world: seq<Turn>, names: Option<seq<string>>,
                      transcript: seq<Message>, outcome: Outcome, prompts: seq<Prompt>, rounds: nat)
  {
    && Rounded(world, rounds) && Ended(a.maxSteps, world, rounds, outcome)
    && (outcome == Answered ==> rounds < |world| && world[rounds].Reply?)
    && transcript == Rounds(world, rounds) + (if outcome == Answered then [world[rounds].message] else [])
    && |prompts| == rounds + (if outcome in {Answered, ModelFailed} then 1 else 0)
    && (forall n :: 0 <= n < |prompts| ==> prompts[n] == Asked(a, system, user, world, names, n))
    && (a.maxSteps > 0 ==> |prompts| <= a.maxSteps)
  }

  /** Every prompt is the system message, the user's messages and the whole transcript so far,
      with the tools the whitelist allows. */
  lemma PromptsAreConversations(a: ReactAgent, system: Message, user: seq<Message>, world: seq<Turn>, names: Option<seq<string>>,
                                transcript: seq<Message>, outcome: Outcome, prompts: seq<Prompt>, rounds: nat, n: nat)
    requires Ran(a, system, user, world, names, transcript, outcome, prompts, rounds) && n < |prompts|
    ensures 2 * n <= |transcript|
    ensures prompts[n] == Prompt([system] + user + transcript[..2 * n], Allowed(a.definitions, names))
  {
    RoundsAreNested(world, n, rounds);
    hide Allowed, GoesOn, CallsIn, Rounds;
    assert transcript[..2 * n] == Rounds(world, rounds)[..2 * n];
  }

  lemma {:induction false} RoundsAreNested(world: seq<Turn>, n: nat, k: nat)
    requires n <= k <= |world| && forall i :: 0 <= i < k ==> world[i].Reply?
    ensures Rounds(world, k)[..2 * n] == Rounds(world, n)
  {
    hide Answer;
    if n < k {
      RoundsAreNested(world, n, k - 1);
      assert Rounds(world, k)[..2 * (k - 1)] == Rounds(world, k - 1);
      assert Rounds(world, k)[..2 * n] == Rounds(world, k - 1)[..2 * n];
    } else {
      assert Rounds(world, k)[..2 * n] == Rounds(world, k);
    }
  }

  /** The observer or one of the results of this reply ends the loop. */
  predicate EndsHere(t: Turn)
    requires t.Reply?
  {
    !t.goOn || exists i :: 0 <= i < |CallsIn(t.message.content)| && t.ends(t.tool(CallsIn(t.message.content)[i]))
  }

  /** Nothing ends the loop before its last round, and what ends it there ends it as stopped,
      whatever the step limit. Otherwise it is stopped exactly by an interruption without an
      error, below the limit. */
  lemma StoppedIff(a: ReactAgent, system: Message, user: seq<Message>, world: seq<Turn>, names: Option<seq<string>>,
                   transcript: seq<Message>, outcome: Outcome, prompts: seq<Prompt>, rounds: nat)
    requires Ran(a, system, user, world, names, transcript, outcome, prompts, rounds)
    ensures rounds <= |world| && forall n :: 0 <= n < rounds ==> world[n].Reply?
    ensures forall n :: 0 <= n < rounds - 1 ==> !EndsHere(world[n])
    ensures outcome == Stopped <==>
              || (rounds > 0 && EndsHere(world[rounds - 1]))
              || (rounds < |world| && world[rounds] == Interrupted(false) && (a.maxSteps > 0 ==> rounds < a.maxSteps))
  {
    assert rounds <= |world| && forall n :: 0 <= n < rounds ==> world[n].Reply?;
    forall n | 0 <= n < rounds ensures EndsHere(world[n]) <==> !GoesOn(world[n]) {
      EndsIff(world[n]);
    }
    hide EndsHere, GoesOn, CallsIn, Rounds;
  }

  lemma EndsIff(t: Turn)
    requires t.Reply?
    ensures EndsHere(t) <==> !GoesOn(t)
  {
    hide CallsIn;
    var calls := CallsIn(t.message.content);
    var results := Results(calls, t.tool);
    forall i | 0 <= i < |calls| ensures results[i] == t.tool(calls[i]) {}
  }

  lemma NothingIsPaired()
    ensures Paired([])
  {
  }

  /** Some terminating tool has run without error. */
  predicate EarlyEnd(results: seq<ToolResult>, ends: ToolResult -> bool) {
    exists i :: 0 <= i < |results| && ends(results[i])
  }
}
