/** Messages and their JSON form: every content kind is wrapped with a type tag, composite
    parts are wrapped and encoded one by one, and embedded media data is stripped. */
module Messages {
  import opened Options

  /** An arbitrary JSON value: arguments, outputs, media metadata. */
  datatype Any = Any(text: string)

  datatype ToolCall = ToolCall(id: string, toolName: string, args: Any)

  datatype ToolResult = ToolResult(toolCallID: string, toolName: string, outputs: Any)

  datatype Media = Media(id: string, kind: string, path: string, base64: string, mimeType: string, meta: Any)

  const NO_MEDIA := Media("", "", "", "", "", Any(""))

  /** Nil is a message without content. */
  datatype Content =
    | Nil
    | Text(text: string)
    | Reasoning(reasoning: string)
    | ToolCalls(details: seq<ToolCall>)
    | ToolResults(results: seq<ToolResult>)
    | MultiModal(detail: Media)
    | Composite(parts: seq<Content>)

  datatype Usage = Usage(total: int, input: int, cached: int, reasoning: int, output: int)

  datatype Message = Message(id: string, role: string, content: Content, finishReason: string, usage: Option<Usage>)

  // ---- The wrapper ----

  /** The JSON representation of a content, and raw JSON that should hold one. */
  datatype Wrapper = Wrapper(typ: string, text: string, reasoning: string, details: seq<ToolCall>,
                             results: seq<ToolResult>, detail: Option<Media>, parts: seq<Raw>)

  datatype Raw = Encoded(wrapper: Wrapper) | Malformed

  datatype Result<T> = Ok(value: T) | Err

  function Blank(typ: string): Wrapper {
    Wrapper(typ, "", "", [], [], None, [])
  }

  function StripMedia(m: Media): Media {
    m.(base64 := "")
  }

  /** json.Marshal on a wrapper: media lose their embedded data. */
  function Encode(w: Wrapper): Raw {
    Encoded(w.(detail := if w.detail.Some? then Some(StripMedia(w.detail.value)) else None))
  }

  /** json.Unmarshal into a wrapper. */
  function Decode(r: Raw): Result<Wrapper> {
    if r.Encoded? then Ok(r.wrapper) else Err
  }

  function Marshal(c: Content): Wrapper
    decreases c
  {
    match c
    case Nil => Blank("unknown")
    case Text(text) => Blank("text").(text := text)
    case Reasoning(reasoning) => Blank("reasoning").(reasoning := reasoning)
    case ToolCalls(details) => Blank("tool_call").(details := details)
    case ToolResults(results) => Blank("tool_result").(results := results)
    case MultiModal(detail) => Blank("multi_modal").(detail := Some(detail))
    case Composite(parts) =>
      Blank("composite").(parts := seq(|parts|, i requires 0 <= i < |parts| => Encode(Marshal(parts[i]))))
  }

  function Unmarshal(w: Wrapper): Result<Content>
    decreases w, |w.parts| + 1
  {
    match w.typ
    case "text" => Ok(Text(w.text))
    case "reasoning" => Ok(Reasoning(w.reasoning))
    case "tool_call" => Ok(ToolCalls(w.details))
    case "tool_result" => Ok(ToolResults(w.results))
    case "multi_modal" => Ok(MultiModal(if w.detail.Some? then w.detail.value else NO_MEDIA))
    case "composite" =>
      var parts := UnmarshalParts(w, |w.parts|);
      if parts.Ok? then Ok(Composite(parts.value)) else Err
    case _ => Ok(Nil)
  }

  /** The first parts of a composite, or the first error among them. */
  function UnmarshalParts(w: Wrapper, n: nat): (r: Result<seq<Content>>)
    requires n <= |w.parts|
    ensures r.Ok? ==> |r.value| == n
    decreases w, n
  {
    if n == 0 then Ok([])
    else
      var front := UnmarshalParts(w, n - 1);
      if front.Err? then Err
      else if w.parts[n - 1].Malformed? then Err
      else
        var part := Unmarshal(w.parts[n - 1].wrapper);
        if part.Err? then Err else Ok(front.value + [part.value])
  }

  // ---- Round trip ----

  /** A content without the data of its media, at any depth. */
  function Strip(c: Content): Content
    decreases c
  {
    match c
    case MultiModal(detail) => MultiModal(StripMedia(detail))
    case Composite(parts) => Composite(seq(|parts|, i requires 0 <= i < |parts| => Strip(parts[i])))
    case _ => c
  }

  /** What reaches the disk and comes back. */
  function Reread(c: Content): Result<Content> {
    var w := Decode(Encode(Marshal(c)));
    if w.Ok? then Unmarshal(w.value) else Err
  }

  /** Reading back what was written gives the content without embedded media data, at any
      nesting of composites. */
  lemma {:induction false} ContentRoundTrip(c: Content)
    ensures Reread(c) == Ok(Strip(c))
    decreases c, if c.Composite? then |c.parts| + 1 else 0
  {
    if c.Composite? {
      var w := Encode(Marshal(c)).wrapper;
      PartsRoundTrip(c, w, |c.parts|);
      assert Strip(c).parts == Strip(c).parts[..|c.parts|];
    }
  }

  lemma {:induction false} PartsRoundTrip(c: Content, w: Wrapper, n: nat)
    requires c.Composite? && n <= |c.parts| && w == Encode(Marshal(c)).wrapper
    ensures UnmarshalParts(w, n) == Ok(Strip(c).parts[..n])
    decreases c, n
  {
    if n > 0 {
      PartsRoundTrip(c, w, n - 1);
      ContentRoundTrip(c.parts[n - 1]);
      assert w.parts[n - 1] == Encode(Marshal(c.parts[n - 1]));
      assert Strip(c).parts[..n] == Strip(c).parts[..n - 1] + [Strip(c.parts[n - 1])];
    }
  }

  /** Nothing in the content carries embedded data. */
  predicate Bare(c: Content)
    decreases c
  {
    match c
    case MultiModal(detail) => detail.base64 == ""
    case Composite(parts) => forall i :: 0 <= i < |parts| ==> Bare(parts[i])
    case _ => true
  }

  /** The round trip is the identity exactly on contents without embedded data; what was
      read back is such a content. */
  lemma {:induction false} StripIsIdentityIff(c: Content)
    ensures Strip(c) == c <==> Bare(c)
    ensures Bare(Strip(c))
    decreases c
  {
    if c.Composite? {
      forall i | 0 <= i < |c.parts| ensures (Strip(c.parts[i]) == c.parts[i] <==> Bare(c.parts[i])) && Bare(Strip(c.parts[i])) {
        StripIsIdentityIff(c.parts[i]);
      }
      if Strip(c) == c {
        forall i | 0 <= i < |c.parts| ensures Bare(c.parts[i]) {
          assert Strip(c).parts[i] == c.parts[i];
        }
      }
      if Bare(c) { assert Strip(c).parts == c.parts; }
    }
  }

  /** Some raw part below the composites is not a wrapper. */
  predicate HasMalformed(w: Wrapper)
    decreases w
  {
    w.typ == "composite" &&
    exists i :: 0 <= i < |w.parts| && (w.parts[i].Malformed? || HasMalformed(w.parts[i].wrapper))
  }

  /** Whatever was read from disk, unmarshalling fails exactly when some nested part is
      malformed. */
  lemma {:induction false} UnmarshalFailsIff(w: Wrapper)
    ensures Unmarshal(w).Err? <==> HasMalformed(w)
    decreases w, |w.parts| + 1
  {
    if w.typ == "composite" { PartsFailIff(w, |w.parts|); }
  }

  lemma {:induction false} PartsFailIff(w: Wrapper, n: nat)
    requires n <= |w.parts|
    ensures UnmarshalParts(w, n).Err? <==>
              exists i :: 0 <= i < n && (w.parts[i].Malformed? || HasMalformed(w.parts[i].wrapper))
    decreases w, n
  {
    if n > 0 {
      PartsFailIff(w, n - 1);
      if w.parts[n - 1].Encoded? { UnmarshalFailsIff(w.parts[n - 1].wrapper); }
    }
  }

  /** The tag each kind of content is written with; a content read under any other tag is
      empty. */
  lemma Tags(c: Content, w: Wrapper)
    ensures Marshal(c).typ == "text" <==> c.Text?
    ensures Marshal(c).typ == "reasoning" <==> c.Reasoning?
    ensures Marshal(c).typ == "tool_call" <==> c.ToolCalls?
    ensures Marshal(c).typ == "tool_result" <==> c.ToolResults?
    ensures Marshal(c).typ == "multi_modal" <==> c.MultiModal?
    ensures Marshal(c).typ == "composite" <==> c.Composite?
    ensures w.typ !in {"text", "reasoning", "tool_call", "tool_result", "multi_modal", "composite"} ==> Unmarshal(w) == Ok(Nil)
  {
  }

  // ---- Messages ----

  datatype MessageJSON = MessageJSON(id: string, role: string, content: Raw, finishReason: string, usage: Option<Usage>)

  function MarshalMessage(m: Message): MessageJSON {
    MessageJSON(m.id, m.role, Encode(Marshal(m.content)), m.finishReason, m.usage)
  }

  function UnmarshalMessage(j: MessageJSON): Result<Message> {
    var w := Decode(j.content);
    if w.Err? then Err
    else
      var content := Unmarshal(w.value);
      if content.Err? then Err else Ok(Message(j.id, j.role, content.value, j.finishReason, j.usage))
  }

  function StripMessage(m: Message): Message {
    m.(content := Strip(m.content))
  }

  lemma MessageRoundTrip(m: Message)
    ensures UnmarshalMessage(MarshalMessage(m)) == Ok(StripMessage(m))
  {
    ContentRoundTrip(m.content);
  }
}
