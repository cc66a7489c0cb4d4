/** The two upstream readers: a line-scanning loop per vendor, and the plain
    meaning of a whole upstream body that both are proved against. */
module Sse {
  import opened Basics
  import opened Provider

  /** The payload of a `data:` line; blank lines, comments and other fields carry none. */
  function DataOf(line: string): Option<string> {
    if line == "" || HasPrefix(line, ":") || !HasPrefix(line, "data:") then
      None
    else
      var d := line[5..];
      Some(if HasPrefix(d, " ") then d[1..] else d)
  }

  // ---- What one line makes a reader do ----

  /** `Stop` is the upstream's own terminator; `Fail` ends the stream with an error event. */
  datatype Action = Skip | Emit(chunk: Chunk) | Fail(err: Error) | Stop

  /** The result of decoding one OpenAI payload. */
  datatype OpenAiPayload = BadJson | ErrorEnvelope(code: string) | ChunkJson(chunk: Chunk)

  /** Metadata captured at message_start; the OpenAI reader leaves it alone. */
  datatype StreamMeta = StreamMeta(id: string, model: string, inputTokens: int)

  const NO_META := StreamMeta("", "", 0)

  datatype StartInfo = StartInfo(id: string, model: string, inputTokens: int)

  datatype BlockDelta = BlockDelta(kind: string, text: string)

  /** The Anthropic event payloads, one constructor per `type` the reader tells apart. */
  datatype AnthEvent =
    | MessageStart(message: Option<StartInfo>)
    | ContentBlockStart(kind: string)
    | ContentBlockDelta(delta: Option<BlockDelta>)
    | ContentBlockStop
    | MessageDelta(stopReason: Option<string>, outputTokens: Option<int>)
    | MessageStop
    | ErrorEvent(errorType: Option<string>)
    | Ping
    | UnknownEvent

  datatype AnthPayload = BadEvent | Event(event: AnthEvent)

  /** A vendor adapter. Decoding JSON is a parameter. */
  datatype Vendor =
    | OpenAi(decodeChunk: string -> OpenAiPayload)
    | Anthropic(decodeEvent: string -> AnthPayload, created: int)

  function OpenAiAction(decode: string -> OpenAiPayload, data: string): Action {
    if data == "[DONE]" then
      Stop
    else
      match decode(data)
      case BadJson => Fail(UPSTREAM_FAULT)
      case ErrorEnvelope(_) => Fail(UPSTREAM_FAULT)
      case ChunkJson(c) => Emit(c)
  }

  function MapStopReason(r: string): string {
    if r == "end_turn" then "stop"
    else if r == "max_tokens" then "length"
    else if r == "stop_sequence" then "stop"
    else if r == "tool_use" then "tool_calls"
    else r
  }

  /** The vendor's error type alone decides here: the HTTP status of a running stream is 0. */
  function MapToSentinel(kind: string): Sentinel {
    if kind == "authentication_error" || kind == "permission_error" then ErrAuth
    else if kind == "rate_limit_error" then ErrRateLimited
    else if kind == "overloaded_error" then ErrUnavailable
    else if kind == "invalid_request_error" || kind == "not_found_error" then ErrInvalidRequest
    else if kind == "request_too_large" then ErrContextLength
    else ErrUpstream
  }

  function MakeChunk(meta: StreamMeta, created: int, choice: StreamChoice, usage: Option<Usage>): Chunk {
    Chunk(meta.id, created, meta.model, [choice], usage)
  }

  /** handleEvent: the new metadata and what to do next. */
  function AnthropicAction(meta: StreamMeta, created: int, ev: AnthEvent): (StreamMeta, Action) {
    match ev
    case MessageStart(m) =>
      var meta' := if m.Some? then StreamMeta(m.value.id, m.value.model, m.value.inputTokens) else meta;
      (meta', Emit(MakeChunk(meta', created, StreamChoice(0, Delta("assistant", ""), ""), None)))
    case ContentBlockDelta(d) =>
      if d.None? || d.value.kind != "text_delta" || d.value.text == "" then
        (meta, Skip)
      else
        (meta, Emit(MakeChunk(meta, created, StreamChoice(0, Delta("", d.value.text), ""), None)))
    case MessageDelta(reason, out) =>
      var finish := if reason.Some? then MapStopReason(reason.value) else "";
      var usage := if out.Some? then Some(Usage(meta.inputTokens, out.value, meta.inputTokens + out.value)) else None;
      (meta, Emit(MakeChunk(meta, created, StreamChoice(0, Delta("", ""), finish), usage)))
    case MessageStop => (meta, Stop)
    case ErrorEvent(kind) =>
      (meta, Fail(if kind.Some? then UpstreamError(MapToSentinel(kind.value), 0) else UPSTREAM_FAULT))
    case _ => (meta, Skip)
  }

  function HandleLine(v: Vendor, meta: StreamMeta, line: string): (StreamMeta, Action) {
    var data := DataOf(line);
    if data.None? then
      (meta, Skip)
    else
      match v
      case OpenAi(decode) => (meta, OpenAiAction(decode, data.value))
      case Anthropic(decode, created) =>
        match decode(data.value)
        case BadEvent => (meta, Fail(UPSTREAM_FAULT))
        case Event(ev) => AnthropicAction(meta, created, ev)
  }

  // ---- The meaning of a whole body ----

  /** All events of a body, and whether it ended with the upstream's own terminator. */
  datatype Transcript = Transcript(events: seq<StreamEvent>, complete: bool)

  /** A body that runs out of lines, by EOF or by a read error, is a truncated one. */
  function ReadFrom(v: Vendor, meta: StreamMeta, lines: seq<string>): Transcript
    decreases |lines|
  {
    if lines == [] then
      Transcript([ErrEvent(UPSTREAM_FAULT)], false)
    else
      var (meta', action) := HandleLine(v, meta, lines[0]);
      match action
      case Skip => ReadFrom(v, meta', lines[1..])
      case Emit(c) =>
        var rest := ReadFrom(v, meta', lines[1..]);
        Transcript([ChunkEvent(c)] + rest.events, rest.complete)
      case Fail(e) => Transcript([ErrEvent(e)], false)
      case Stop => Transcript([], true)
  }

  predicate AllChunks(events: seq<StreamEvent>) {
    forall i :: 0 <= i < |events| ==> events[i].ChunkEvent?
  }

  function ChunksOf(events: seq<StreamEvent>): (cs: seq<Chunk>)
    requires AllChunks(events)
  {
    if events == [] then [] else [events[0].chunk] + ChunksOf(events[1..])
  }

  /** A stream carries an error event exactly when it did not end properly, and only at its end. */
  lemma {:induction false} ErrorOnlyAtEnd(v: Vendor, meta: StreamMeta, lines: seq<string>)
    ensures var t := ReadFrom(v, meta, lines);
            if t.complete then AllChunks(t.events)
            else t.events != [] && t.events[|t.events| - 1].ErrEvent? && AllChunks(t.events[..|t.events| - 1])
    decreases |lines|
  {
    if lines == [] {
    } else {
      var (meta', action) := HandleLine(v, meta, lines[0]);
      if action.Skip? || action.Emit? {
        ErrorOnlyAtEnd(v, meta', lines[1..]);
      }
    }
  }

  // ---- When a body is complete, by its lines and the decoder alone ----

  /** A line carries a payload iff it is the field name, at most one blank, and the payload. */
  lemma DataOfExact(line: string, d: string)
    ensures DataOf(line) == Some(d) <==> line == "data: " + d || (line == "data:" + d && !(|d| > 0 && d[0] == ' '))
  {
    if line == "data: " + d {
      assert line[..5] == "data:" && line[0] != ':' && line[5..] == " " + d && line[5..][..1] == " ";
      assert line[5..][1..] == d;
    }
    if line == "data:" + d && !(|d| > 0 && d[0] == ' ') {
      assert line[..5] == "data:" && line[0] != ':' && line[5..] == d;
    }
    if DataOf(line) == Some(d) {
      assert line == line[..5] + line[5..] && line[..5] == "data:";
      if HasPrefix(line[5..], " ") {
        assert line[5..] == [line[5..][0]] + line[5..][1..] && line[5..][0] == ' ';
        assert line == "data: " + d;
      }
    }
  }

  /** Anthropic: some payload is message_stop, and all before it decode to other events than it
      and error. */
  ghost predicate AnthropicEndsAt(decode: string -> AnthPayload, lines: seq<string>, i: nat) {
    && i < |lines| && DataOf(lines[i]).Some? && decode(DataOf(lines[i]).value) == Event(MessageStop)
    && forall j :: 0 <= j < i && DataOf(lines[j]).Some? ==> AnthropicGoesOn(decode, DataOf(lines[j]).value)
  }

  predicate AnthropicGoesOn(decode: string -> AnthPayload, data: string) {
    decode(data).Event? && !decode(data).event.MessageStop? && !decode(data).event.ErrorEvent?
  }

  /** OpenAI: some payload is `[DONE]`, and all before it decode to chunks. */
  ghost predicate OpenAiEndsAt(decode: string -> OpenAiPayload, lines: seq<string>, i: nat) {
    && i < |lines| && DataOf(lines[i]) == Some("[DONE]")
    && forall j :: 0 <= j < i && DataOf(lines[j]).Some? ==> OpenAiGoesOn(decode, DataOf(lines[j]).value)
  }

  predicate OpenAiGoesOn(decode: string -> OpenAiPayload, data: string) {
    data != "[DONE]" && decode(data).ChunkJson?
  }

  ghost predicate WellEnded(v: Vendor, lines: seq<string>) {
    match v
    case OpenAi(decode) => exists i :: OpenAiEndsAt(decode, lines, i)
    case Anthropic(decode, _) => exists i :: AnthropicEndsAt(decode, lines, i)
  }

  lemma WellEndedStep(v: Vendor, lines: seq<string>)
    requires lines != []
    ensures var data, rest := DataOf(lines[0]), lines[1..];
            WellEnded(v, lines) <==>
            match v
            case OpenAi(decode) =>
              if data.None? || OpenAiGoesOn(decode, data.value) then WellEnded(v, rest) else data.value == "[DONE]"
            case Anthropic(decode, _) =>
              if data.None? || AnthropicGoesOn(decode, data.value) then WellEnded(v, rest)
              else decode(data.value) == Event(MessageStop)
  {
    hide DataOf;
    var rest := lines[1..];
    assert forall j :: 0 <= j < |rest| ==> rest[j] == lines[j + 1];
    assert forall j :: 0 < j < |lines| ==> lines[j] == rest[j - 1];
    match v
    case OpenAi(decode) =>
      if i: nat :| OpenAiEndsAt(decode, lines, i) && i > 0 {
        assert OpenAiEndsAt(decode, rest, i - 1);
      }
      if i: nat :| OpenAiEndsAt(decode, rest, i) && (DataOf(lines[0]).Some? ==> OpenAiGoesOn(decode, DataOf(lines[0]).value)) {
        assert OpenAiEndsAt(decode, lines, i + 1);
      }
      if DataOf(lines[0]) == Some("[DONE]") {
        assert OpenAiEndsAt(decode, lines, 0);
      }
    case Anthropic(decode, _) =>
      if i: nat :| AnthropicEndsAt(decode, lines, i) && i > 0 {
        assert AnthropicEndsAt(decode, rest, i - 1);
      }
      if i: nat :| AnthropicEndsAt(decode, rest, i) && (DataOf(lines[0]).Some? ==> AnthropicGoesOn(decode, DataOf(lines[0]).value)) {
        assert AnthropicEndsAt(decode, lines, i + 1);
      }
      if DataOf(lines[0]).Some? && decode(DataOf(lines[0]).value) == Event(MessageStop) {
        assert AnthropicEndsAt(decode, lines, 0);
      }
  }

  /** A body is read as complete exactly when it has its vendor's terminator and every payload
      before that decodes and is no error. */
  lemma {:induction false} CompleteExact(v: Vendor, meta: StreamMeta, lines: seq<string>)
    ensures ReadFrom(v, meta, lines).complete <==> WellEnded(v, lines)
    decreases |lines|
  {
    hide DataOf, WellEnded;
    if lines == [] {
      NeverEnded(v);
    } else {
      WellEndedStep(v, lines);
      var (meta', action) := HandleLine(v, meta, lines[0]);
      CompleteExact(v, meta', lines[1..]);
    }
  }

  lemma NeverEnded(v: Vendor)
    ensures !WellEnded(v, [])
  {
  }

  /** The chunks of an OpenAI body up to its terminator, line by line. */
  function Decoded(decode: string -> OpenAiPayload, lines: seq<string>): seq<StreamEvent> {
    if lines == [] then []
    else
      var data := DataOf(lines[|lines| - 1]);
      Decoded(decode, lines[..|lines| - 1])
      + if data.Some? && decode(data.value).ChunkJson? then [ChunkEvent(decode(data.value).chunk)] else []
  }

  lemma {:induction false} DecodedCons(decode: string -> OpenAiPayload, line: string, rest: seq<string>)
    ensures Decoded(decode, [line] + rest) == Decoded(decode, [line]) + Decoded(decode, rest)
  {
    hide DataOf;
    if rest == [] {
      assert [line] + rest == [line];
    } else {
      assert ([line] + rest)[..|rest|] == [line] + rest[..|rest| - 1];
      DecodedCons(decode, line, rest[..|rest| - 1]);
    }
  }

  /** Of a complete OpenAI body every decoded chunk before the terminator is an event, in order. */
  lemma {:induction false} OpenAiEvents(decode: string -> OpenAiPayload, lines: seq<string>, i: nat)
    requires OpenAiEndsAt(decode, lines, i)
    ensures ReadFrom(OpenAi(decode), NO_META, lines) == Transcript(Decoded(decode, lines[..i]), true)
    decreases i
  {
    hide DataOf;
    if i == 0 {
    } else {
      var rest := lines[1..];
      assert forall j :: 0 <= j < |rest| ==> rest[j] == lines[j + 1];
      OpenAiEvents(decode, rest, i - 1);
      assert lines[..i] == [lines[0]] + rest[..i - 1];
      DecodedCons(decode, lines[0], rest[..i - 1]);
      assert [lines[0]][..0] == [];
    }
  }

  /** Which errors of a running Anthropic stream may be retried elsewhere, by the vendor's names. */
  lemma StreamErrorRetries(kind: string)
    ensures IsRetryable(UpstreamError(MapToSentinel(kind), 0)) <==>
            kind !in {"authentication_error", "permission_error", "invalid_request_error", "not_found_error",
                      "request_too_large"}
    ensures MapToSentinel("rate_limit_error") == ErrRateLimited && MapToSentinel("overloaded_error") == ErrUnavailable
    ensures MapToSentinel("api_error") == ErrUpstream && MapToSentinel("request_too_large") == ErrContextLength
    ensures MapToSentinel("authentication_error") == MapToSentinel("permission_error") == ErrAuth
    ensures MapToSentinel("invalid_request_error") == MapToSentinel("not_found_error") == ErrInvalidRequest
  {
  }

  /** Line i is an error event of this type, and `last` is what it is turned into. */
  predicate Reports(decode: string -> AnthPayload, lines: seq<string>, i: nat, kind: string, last: StreamEvent) {
    && i < |lines| && DataOf(lines[i]).Some? && decode(DataOf(lines[i]).value) == Event(ErrorEvent(Some(kind)))
    && last == ErrEvent(UpstreamError(MapToSentinel(kind), 0))
  }

  /** The error a failed body ends with: the vendor's own, as its error event names it, and the
      retryable upstream error for everything else that can go wrong. */
  lemma {:induction false} FailureKind(v: Vendor, meta: StreamMeta, lines: seq<string>)
    ensures var t := ReadFrom(v, meta, lines);
            !t.complete ==>
              && t.events != []
              && var last := t.events[|t.events| - 1];
                 || last == ErrEvent(UpstreamError(ErrUpstream, 0))
                 || (v.Anthropic? && exists i, kind :: Reports(v.decodeEvent, lines, i, kind, last))
    decreases |lines|
  {
    hide DataOf, MapToSentinel, MapStopReason;
    if lines == [] {
    } else {
      var (meta', action) := HandleLine(v, meta, lines[0]);
      var rest := lines[1..];
      if action.Skip? || action.Emit? {
        FailureKind(v, meta', rest);
        if v.Anthropic? {
          forall i: nat, kind, last | Reports(v.decodeEvent, rest, i, kind, last)
            ensures Reports(v.decodeEvent, lines, i + 1, kind, last)
          {
            assert rest[i] == lines[i + 1];
          }
        }
      } else if action.Fail? && v.Anthropic? {
        var data := DataOf(lines[0]).value;
        if v.decodeEvent(data).Event? && v.decodeEvent(data).event.errorType.Some? {
          var kind := v.decodeEvent(data).event.errorType.value;
          assert Reports(v.decodeEvent, lines, 0, kind, ErrEvent(action.err));
        }
      }
    }
  }

  // ---- The reader loops ----

  /** A buffered Go channel seen from its producer, with the request context that
      every send is raced against. Cancellation can come at any moment and stays. */
  class Channel {
    var sent: seq<StreamEvent>
    var cancelled: bool

    constructor ()
      ensures sent == []
    {
      sent, cancelled := [], *;
    }

    /** Time passes. */
    method Poll()
      modifies this`cancelled
      ensures old(cancelled) ==> cancelled
    {
      var now: bool := *;
      cancelled := cancelled || now;
    }

    /** sendEvent: the event is delivered unless the context was cancelled first. */
    method Send(ev: StreamEvent) returns (ok: bool)
      modifies this
      ensures sent == if ok then old(sent) + [ev] else old(sent)
      ensures !ok || old(cancelled) ==> cancelled
    {
      Poll();
      var room: bool := *;
      ok := !cancelled || room;
      if ok {
        sent := sent + [ev];
      }
    }
  }

  datatype Exit = Terminator | AfterError | Aborted

  /** A cancelled read can end in the middle of a line. The scanner hands over what it has, that
      does not decode, and the reader may still send the error. */
  predicate Torn(t: Transcript, sent: seq<StreamEvent>) {
    sent != [] && sent[|sent| - 1] == ErrEvent(UPSTREAM_FAULT) && sent[..|sent| - 1] <= t.events
  }

  /** What a reader may have put on its channel when it returns by `exit`: everything, unless the
      context was cancelled, and then a prefix, possibly with the error for a torn line. */
  predicate Delivers(t: Transcript, sent: seq<StreamEvent>, exit: Exit) {
    match exit
    case Terminator => t.complete && sent == t.events
    case AfterError => !t.complete && sent == t.events
    case Aborted => sent <= t.events || Torn(t, sent)
  }

  /** `rest` is what is left of `all` after `sent`. */
  predicate Remaining(all: Transcript, sent: seq<StreamEvent>, rest: Transcript) {
    all.events == sent + rest.events && all.complete == rest.complete
  }

  lemma RemainingAll(all: Transcript)
    ensures Remaining(all, [], all)
  {
  }

  /** What one line does to the part of the transcript already delivered. */
  lemma RemainingStep(all: Transcript, sent: seq<StreamEvent>, v: Vendor, meta: StreamMeta, lines: seq<string>)
    requires Remaining(all, sent, ReadFrom(v, meta, lines))
    ensures Delivers(all, sent, Aborted) && Delivers(all, sent + [ErrEvent(UPSTREAM_FAULT)], Aborted)
    ensures lines == [] ==> Delivers(all, sent + [ErrEvent(UPSTREAM_FAULT)], AfterError)
    ensures lines != [] ==>
              var (meta', action) := HandleLine(v, meta, lines[0]);
              match action
              case Skip => Remaining(all, sent, ReadFrom(v, meta', lines[1..]))
              case Emit(c) => Remaining(all, sent + [ChunkEvent(c)], ReadFrom(v, meta', lines[1..]))
              case Fail(e) => Delivers(all, sent + [ErrEvent(e)], AfterError)
              case Stop => Delivers(all, sent, Terminator)
  {
  }

  /** Whether a cancelled context stops the scanner in front of this line, or in the middle of it. */
  method Interrupted(line: string, ch: Channel) returns (stopped: bool)
    modifies ch
    ensures stopped ==> ch.cancelled
    ensures ch.sent == old(ch.sent) || (stopped && ch.sent == old(ch.sent) + [ErrEvent(UPSTREAM_FAULT)])
  {
    ch.Poll();
    stopped := *;
    stopped := stopped && ch.cancelled;
    if stopped && DataOf(line).Some? {
      var torn: bool := *;
      if torn {
        var _ := ch.Send(ErrEvent(UPSTREAM_FAULT));
      }
    }
  }

  /** One decoded `data:` payload of the OpenAI loop. */
  method HandlePayload(decode: string -> OpenAiPayload, data: string, ch: Channel) returns (done: bool, ok: bool)
    modifies ch
    ensures !ok ==> ch.cancelled
    ensures var action := OpenAiAction(decode, data);
            && done == (action.Fail? || action.Stop?)
            && (action.Stop? ==> ok && ch.sent == old(ch.sent))
            && (action.Emit? ==> ch.sent == if ok then old(ch.sent) + [ChunkEvent(action.chunk)] else old(ch.sent))
            && (action.Fail? ==> ch.sent == if ok then old(ch.sent) + [ErrEvent(action.err)] else old(ch.sent))
  {
    if data == "[DONE]" {
      return true, true;
    }
    var payload := decode(data);
    if !payload.ChunkJson? {
      done := true;
      ok := ch.Send(ErrEvent(UPSTREAM_FAULT));
    } else {
      done := false;
      ok := ch.Send(ChunkEvent(payload.chunk));
    }
  }

  /** The OpenAI read loop. With a cancelled context the scanner may stop, or hand over the line
      torn. */
  method ReadOpenAi(decode: string -> OpenAiPayload, lines: seq<string>, ch: Channel) returns (exit: Exit)
    requires ch.sent == []
    modifies ch
    ensures Delivers(ReadFrom(OpenAi(decode), NO_META, lines), ch.sent, exit)
    ensures exit == Aborted ==> ch.cancelled
  {
    hide ReadFrom, Remaining, Delivers, DataOf;
    var v := OpenAi(decode);
    ghost var all := ReadFrom(v, NO_META, lines);
    RemainingAll(all);
    assert lines[0..] == lines;
    var i := 0;
    while i < |lines|
      invariant 0 <= i <= |lines|
      invariant Remaining(all, ch.sent, ReadFrom(v, NO_META, lines[i..]))
    {
      RemainingStep(all, ch.sent, v, NO_META, lines[i..]);
      var stopped := Interrupted(lines[i], ch);
      if stopped {
        return Aborted;
      }
      var data := DataOf(lines[i]);
      assert lines[i..][1..] == lines[i + 1..];
      i := i + 1;
      if data.Some? {
        var done, ok := HandlePayload(decode, data.value, ch);
        if !ok {
          return Aborted;
        }
        if done {
          return if data.value == "[DONE]" then Terminator else AfterError;
        }
      }
    }
    RemainingStep(all, ch.sent, v, NO_META, lines[i..]);
    ch.Poll();
    if ch.cancelled {
      return Aborted;
    }
    var ok := ch.Send(ErrEvent(UPSTREAM_FAULT));
    return if ok then AfterError else Aborted;
  }

  /** Per-stream metadata of the Anthropic reader, updated in place. */
  class AnthStreamState {
    var meta: StreamMeta
    const created: int

    constructor (created: int)
      ensures meta == NO_META && this.created == created
    {
      meta := NO_META;
      this.created := created;
    }

    method HandleEvent(ev: AnthEvent, ch: Channel) returns (done: bool, ok: bool)
      modifies this, ch
      ensures !ok ==> ch.cancelled
      ensures var (meta', action) := AnthropicAction(old(meta), created, ev);
              && meta == meta'
              && done == (action.Fail? || action.Stop?)
              && (action.Skip? || action.Stop? ==> ok && ch.sent == old(ch.sent))
              && (action.Emit? ==> ch.sent == if ok then old(ch.sent) + [ChunkEvent(action.chunk)] else old(ch.sent))
              && (action.Fail? ==> ch.sent == if ok then old(ch.sent) + [ErrEvent(action.err)] else old(ch.sent))
    {
      match ev {
        case MessageStart(m) =>
          if m.Some? {
            meta := StreamMeta(m.value.id, m.value.model, m.value.inputTokens);
          }
          done := false;
          ok := ch.Send(ChunkEvent(MakeChunk(meta, created, StreamChoice(0, Delta("assistant", ""), ""), None)));
        case ContentBlockDelta(d) =>
          done, ok := false, true;
          if d.Some? && d.value.kind == "text_delta" && d.value.text != "" {
            ok := ch.Send(ChunkEvent(MakeChunk(meta, created, StreamChoice(0, Delta("", d.value.text), ""), None)));
          }
        case MessageDelta(reason, out) =>
          var finish := "";
          if reason.Some? {
            finish := MapStopReason(reason.value);
          }
          var usage: Option<Usage> := None;
          if out.Some? {
            usage := Some(Usage(meta.inputTokens, out.value, meta.inputTokens + out.value));
          }
          done := false;
          ok := ch.Send(ChunkEvent(MakeChunk(meta, created, StreamChoice(0, Delta("", ""), finish), usage)));
        case MessageStop =>
          done, ok := true, true;
        case ErrorEvent(kind) =>
          done := true;
          if kind.None? {
            ok := ch.Send(ErrEvent(UPSTREAM_FAULT));
          } else {
            ok := ch.Send(ErrEvent(UpstreamError(MapToSentinel(kind.value), 0)));
          }
        case _ =>
          done, ok := false, true;
      }
    }
  }

  lemma StopEvent(meta: StreamMeta, created: int, ev: AnthEvent)
    ensures AnthropicAction(meta, created, ev).1.Stop? <==> ev.MessageStop?
  {
  }

  /** The Anthropic read loop. */
  method ReadAnthropic(decode: string -> AnthPayload, created: int, lines: seq<string>, ch: Channel) returns (exit: Exit)
    requires ch.sent == []
    modifies ch
    ensures Delivers(ReadFrom(Anthropic(decode, created), NO_META, lines), ch.sent, exit)
    ensures exit == Aborted ==> ch.cancelled
  {
    hide ReadFrom, Remaining, Delivers, DataOf, AnthropicAction;
    var v := Anthropic(decode, created);
    ghost var all := ReadFrom(v, NO_META, lines);
    RemainingAll(all);
    assert lines[0..] == lines;
    var state := new AnthStreamState(created);
    var i := 0;
    while i < |lines|
      invariant 0 <= i <= |lines|
      invariant Remaining(all, ch.sent, ReadFrom(v, state.meta, lines[i..]))
    {
      RemainingStep(all, ch.sent, v, state.meta, lines[i..]);
      var stopped := Interrupted(lines[i], ch);
      if stopped {
        return Aborted;
      }
      var data := DataOf(lines[i]);
      assert lines[i..][1..] == lines[i + 1..];
      i := i + 1;
      if data.None? {
        continue;
      }
      var payload := decode(data.value);
      if payload.BadEvent? {
        var ok := ch.Send(ErrEvent(UPSTREAM_FAULT));
        return if ok then AfterError else Aborted;
      }
      StopEvent(state.meta, created, payload.event);
      ghost var next := HandleLine(v, state.meta, lines[i - 1]);
      assert next == AnthropicAction(state.meta, created, payload.event);
      var done, ok := state.HandleEvent(payload.event, ch);
      assert state.meta == next.0;
      if !ok {
        return Aborted;
      }
      if done {
        return if payload.event.MessageStop? then Terminator else AfterError;
      }
    }
    RemainingStep(all, ch.sent, v, state.meta, lines[i..]);
    ch.Poll();
    if ch.cancelled {
      return Aborted;
    }
    var ok := ch.Send(ErrEvent(UPSTREAM_FAULT));
    return if ok then AfterError else Aborted;
  }
}
