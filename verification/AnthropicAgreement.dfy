/** The same Anthropic answer, received as one message and as a stream. */
module AnthropicAgreement {
  import opened Provider
  import opened Sse
  import opened Replay

  /** A non-streaming content block; only kind "text" carries visible text. */
  datatype Block = Block(kind: string, text: string)

  datatype Message = Message(
    id: string, model: string, content: seq<Block>, stopReason: string, inputTokens: int, outputTokens: int)

  // ---- The non-streaming conversion ----

  function TextOf(content: seq<Block>): string {
    if content == [] then ""
    else
      var last := content[|content| - 1];
      TextOf(content[..|content| - 1]) + if last.kind == "text" then last.text else ""
  }

  function FromMessage(m: Message, now: int): Response {
    Response(
      m.id, now, m.model,
      [Choice(0, TextOf(m.content), MapStopReason(m.stopReason))],
      Some(Usage(m.inputTokens, m.outputTokens, m.inputTokens + m.outputTokens)))
  }

  /** fromAnthropicResponse. */
  method FromAnthropicResponse(m: Message, now: int) returns (r: Response)
    ensures r == FromMessage(m, now)
  {
    var content, i := "", 0;
    while i < |m.content|
      invariant 0 <= i <= |m.content|
      invariant content == TextOf(m.content[..i])
    {
      assert m.content[..i + 1][..i] == m.content[..i];
      if m.content[i].kind == "text" {
        content := content + m.content[i].text;
      }
      i := i + 1;
    }
    assert m.content[..i] == m.content;
    r := Response(
      m.id, now, m.model,
      [Choice(0, content, MapStopReason(m.stopReason))],
      Some(Usage(m.inputTokens, m.outputTokens, m.inputTokens + m.outputTokens)));
  }

  // ---- What an event stream says: the vendor's documented event flow ----

  datatype Phase = Before | Between | InBlock | Tail

  /** The message put together so far. */
  datatype Assembly = Assembly(phase: Phase, msg: Message, usageSeen: bool)

  const START := Assembly(Before, Message("", "", [], "", 0, 0), false)

  function AddText(content: seq<Block>, text: string): seq<Block>
    requires content != []
  {
    var last := content[|content| - 1];
    content[..|content| - 1] + [last.(text := last.text + text)]
  }

  /** One event before message_stop; None if it has no place there. Text deltas belong to
      text blocks, output counts are running totals, and pings may come anywhere. */
  function Assemble(a: Assembly, ev: AnthEvent): Option<Assembly> {
    match ev
    case Ping => Some(a)
    case UnknownEvent => Some(a)
    case MessageStart(Some(info)) =>
      if a.phase == Before && info.inputTokens >= 0 then
        Some(Assembly(Between, Message(info.id, info.model, [], "", info.inputTokens, 0), false))
      else
        None
    case ContentBlockStart(kind) =>
      if a.phase == Between then
        Some(a.(phase := InBlock, msg := a.msg.(content := a.msg.content + [Block(kind, "")])))
      else
        None
    case ContentBlockDelta(Some(d)) =>
      if a.phase != InBlock || a.msg.content == [] then None
      else if d.kind != "text_delta" then Some(a)
      else if a.msg.content[|a.msg.content| - 1].kind != "text" then None
      else Some(a.(msg := a.msg.(content := AddText(a.msg.content, d.text))))
    case ContentBlockStop => if a.phase == InBlock then Some(a.(phase := Between)) else None
    case MessageDelta(reason, out) =>
      if (a.phase == Between || a.phase == Tail) && (out.Some? ==> a.msg.outputTokens <= out.value) then
        var stop := if reason.Some? && reason.value != "" then reason.value else a.msg.stopReason;
        var total := if out.Some? then out.value else a.msg.outputTokens;
        Some(Assembly(Tail, a.msg.(stopReason := stop, outputTokens := total), a.usageSeen || out.Some?))
      else
        None
    case _ => None
  }

  /** The message a body denotes, if it is a well-formed stream of one. */
  function Denote(decode: string -> AnthPayload, lines: seq<string>, a: Assembly): Option<Message>
    decreases |lines|
  {
    if lines == [] then None
    else
      var data := DataOf(lines[0]);
      if data.None? then
        Denote(decode, lines[1..], a)
      else
        match decode(data.value)
        case BadEvent => None
        case Event(ev) =>
          if ev.MessageStop? then
            if a.phase == Tail && a.usageSeen then Some(a.msg) else None
          else
            var a' := Assemble(a, ev);
            if a'.Some? then Denote(decode, lines[1..], a'.value) else None
  }

  // ---- The two sides agree ----

  /** The stream's accumulator holds what the message holds. */
  predicate Mirrors(s: Stats, created: int, m: Message, usageSeen: bool) {
    && s.id == m.id && s.model == m.model && s.created == created
    && s.content == TextOf(m.content)
    && s.finishReason == MapStopReason(m.stopReason)
    && s.prompt == (if usageSeen then m.inputTokens else 0)
    && s.output == (if usageSeen then m.outputTokens else 0)
  }

  predicate Sim(created: int, a: Assembly, meta: StreamMeta, s: Stats) {
    && a.msg.inputTokens >= 0 && a.msg.outputTokens >= 0
    && (!a.usageSeen ==> a.msg.outputTokens == 0)
    && if a.phase == Before then
         meta == NO_META && s == EMPTY && a == START
       else
         && meta == StreamMeta(a.msg.id, a.msg.model, a.msg.inputTokens)
         && Mirrors(s, created, a.msg, a.usageSeen)
  }

  lemma TextOfSnoc(content: seq<Block>, b: Block)
    ensures TextOf(content + [b]) == TextOf(content) + if b.kind == "text" then b.text else ""
  {
    assert (content + [b])[..|content|] == content;
  }

  lemma AddTextAppends(content: seq<Block>, text: string)
    requires content != [] && content[|content| - 1].kind == "text"
    ensures TextOf(AddText(content, text)) == TextOf(content) + text
  {
    hide TextOf;
    var init, last := content[..|content| - 1], content[|content| - 1];
    TextOfSnoc(init, last);
    TextOfSnoc(init, last.(text := last.text + text));
    assert content == init + [last];
    Associative(TextOf(init), last.text, text);
  }

  lemma Associative(a: string, b: string, c: string)
    ensures a + (b + c) == (a + b) + c
  {
  }

  /** What a reader's action does to the accumulator. */
  function Act(s: Stats, action: Action): Stats {
    if action.Emit? then Observed(s, action.chunk) else s
  }

  lemma StepSim(created: int, a: Assembly, meta: StreamMeta, s: Stats, ev: AnthEvent)
    requires Sim(created, a, meta, s)
    requires Assemble(a, ev).Some?
    ensures var (meta', action) := AnthropicAction(meta, created, ev);
            && (action.Skip? || action.Emit?)
            && Sim(created, Assemble(a, ev).value, meta', Act(s, action))
  {
    hide Observed, TextOf;
    var (meta', action) := AnthropicAction(meta, created, ev);
    if action.Emit? {
      ObserveSingle(s, action.chunk, action.chunk.choices[0]);
    }
    match ev
    case ContentBlockStart(kind) => TextOfSnoc(a.msg.content, Block(kind, ""));
    case ContentBlockDelta(Some(d)) =>
      if d.kind == "text_delta" {
        AddTextAppends(a.msg.content, d.text);
      }
    case MessageStart(_) => EmptyText();
    case MessageDelta(_, _) => assert s.content + "" == s.content;
    case _ =>
  }

  lemma EmptyText()
    ensures TextOf([]) == ""
  {
  }

  lemma ObserveCons(s: Stats, c: Chunk, rest: seq<Chunk>)
    ensures ObserveAll(s, [c] + rest) == ObserveAll(Observed(s, c), rest)
  {
    ObserveAllAppend(s, [c], rest);
    ObserveOne(s, c);
  }

  /** A well-formed body is read to its end, and its chunks aggregate to the message. */
  lemma {:induction false} Simulates(
    decode: string -> AnthPayload, created: int, lines: seq<string>, a: Assembly, meta: StreamMeta, s: Stats)
    requires Sim(created, a, meta, s)
    requires Denote(decode, lines, a).Some?
    ensures var t := ReadFrom(Anthropic(decode, created), meta, lines);
            && t.complete && AllChunks(t.events)
            && Mirrors(ObserveAll(s, ChunksOf(t.events)), created, Denote(decode, lines, a).value, true)
            && Denote(decode, lines, a).value.inputTokens >= 0
            && Denote(decode, lines, a).value.outputTokens >= 0
    decreases |lines|
  {
    hide Observed, ObserveAll, TextOf, Mirrors, AnthropicAction, Assemble, MapStopReason;
    var v := Anthropic(decode, created);
    var t := ReadFrom(v, meta, lines);
    var data := DataOf(lines[0]);
    if data.None? {
      Simulates(decode, created, lines[1..], a, meta, s);
    } else {
      var ev := decode(data.value).event;
      if ev.MessageStop? {
        StopsReader(meta, created);
        NoChunks(s);
      } else {
        StepSim(created, a, meta, s, ev);
        var (meta', action) := AnthropicAction(meta, created, ev);
        Simulates(decode, created, lines[1..], Assemble(a, ev).value, meta', Act(s, action));
        if action.Emit? {
          var rest := ReadFrom(v, meta', lines[1..]);
          assert t.events == [ChunkEvent(action.chunk)] + rest.events;
          assert t.events[1..] == rest.events;
          ObserveCons(s, action.chunk, ChunksOf(rest.events));
        }
      }
    }
  }

  lemma StopsReader(meta: StreamMeta, created: int)
    ensures AnthropicAction(meta, created, MessageStop) == (meta, Stop)
  {
  }

  lemma NoChunks(s: Stats)
    ensures ObserveAll(s, []) == s
  {
  }

  /** Equal in everything but the synthesized creation time. */
  predicate SameAnswer(a: Response, b: Response) {
    a.id == b.id && a.model == b.model && a.choices == b.choices && a.usage == b.usage
  }

  /** What the gateway assembles from the stream of a message, and what it makes of the
      message itself, are the same answer exactly when the message has an id, a model (or the
      request names none) and nonzero usage. */
  lemma StreamedEqualsWhole(
    decode: string -> AnthPayload, created: int, lines: seq<string>, reqModel: string, now: int, now': int)
    requires Denote(decode, lines, START).Some?
    ensures var m := Denote(decode, lines, START).value;
            var t := ReadFrom(Anthropic(decode, created), NO_META, lines);
            && t.complete && AllChunks(t.events)
            && (SameAnswer(Stored(ChunksOf(t.events), reqModel, now), FromMessage(m, now')) <==>
                && m.id != ""
                && (m.model != "" || reqModel == "")
                && (m.inputTokens > 0 || m.outputTokens > 0))
  {
    hide ObserveAll, TextOf, MapStopReason, ReadFrom, Denote;
    EmptyText();
    Simulates(decode, created, lines, START, NO_META, EMPTY);
  }

  // ---- What a finish reason says ----

  /** The finish reason of a converted message, by the vendor's own values. */
  lemma FinishReasons(m: Message, now: int)
    ensures var finish := FromMessage(m, now).choices[0].finishReason;
            && (m.stopReason == "end_turn" || m.stopReason == "stop_sequence" ==> finish == "stop")
            && (m.stopReason == "max_tokens" ==> finish == "length")
            && (m.stopReason == "tool_use" ==> finish == "tool_calls")
            && (m.stopReason !in {"end_turn", "stop_sequence", "max_tokens", "tool_use"} ==> finish == m.stopReason)
  {
  }

  /** A message finished by itself. */
  predicate FinishedItself(m: Message) {
    m.stopReason == "end_turn" || m.stopReason == "stop_sequence" || m.stopReason == "stop"
  }

  /** The stream of a message passes the cache gate exactly when the message finished by itself,
      has visible text, and there are prompt tokens: an answer cut off at max_tokens, or one that
      asks for a tool, never enters the cache. The same holds for the message received whole. */
  lemma OnlyFinishedAnswersAreCached(
    decode: string -> AnthPayload, created: int, lines: seq<string>, reqModel: string, now: int, promptTok: int)
    requires Denote(decode, lines, START).Some?
    ensures var m := Denote(decode, lines, START).value;
            var t := ReadFrom(Anthropic(decode, created), NO_META, lines);
            && AllChunks(t.events)
            && (Cacheable(Stored(ChunksOf(t.events), reqModel, now), promptTok) <==>
                promptTok > 0 && FinishedItself(m) && TextOf(m.content) != "")
            && (Cacheable(FromMessage(m, now), promptTok) <==>
                promptTok > 0 && FinishedItself(m) && TextOf(m.content) != "")
  {
    hide ObserveAll, TextOf, ReadFrom, Denote, MapStopReason;
    EmptyText();
    Simulates(decode, created, lines, START, NO_META, EMPTY);
    var m := Denote(decode, lines, START).value;
    StopMeans(m.stopReason);
    EmptyReason();
    OneChoiceGate(Stored(ChunksOf(ReadFrom(Anthropic(decode, created), NO_META, lines).events), reqModel, now), promptTok);
    OneChoiceGate(FromMessage(m, now), promptTok);
  }

  lemma StopMeans(reason: string)
    ensures MapStopReason(reason) == "stop" <==> reason == "end_turn" || reason == "stop_sequence" || reason == "stop"
  {
  }

  lemma EmptyReason()
    ensures MapStopReason("") == ""
  {
  }

  lemma OneChoiceGate(r: Response, promptTok: int)
    requires |r.choices| == 1
    ensures Cacheable(r, promptTok) <==>
            promptTok > 0 && r.choices[0].finishReason == "stop" && r.choices[0].content != ""
  {
  }

  /** The first chunk of a streamed message opens the assistant's turn. */
  lemma StartsWithRole(meta: StreamMeta, created: int, info: StartInfo)
    ensures var (meta', action) := AnthropicAction(meta, created, MessageStart(Some(info)));
            && meta' == StreamMeta(info.id, info.model, info.inputTokens)
            && action == Emit(Chunk(info.id, created, info.model, [StreamChoice(0, Delta("assistant", ""), "")], None))
  {
  }
}
