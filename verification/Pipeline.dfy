/** One streaming attempt as four interleaved processes:

      upstream body -> reader -> channel -> router (peek, then forward) -> channel -> handler -> client

    A channel is its history of sends plus how many of them were received. A run is any
    sequence of labels; a label whose process cannot move leaves the state alone, so every
    interleaving of the processes, of cancellation and of failed client writes is a run. */
module Pipeline {
  import opened Provider
  import opened Sse

  /** Both channels are made with this capacity. */
  const CAPACITY := 16

  datatype Config = Config(vendor: Vendor, lines: seq<string>)

  // ---- State ----

  datatype ReaderPc = Scanning | Sending(ev: StreamEvent, last: bool) | Exited(how: Exit)

  datatype Reader = Reader(pos: nat, meta: StreamMeta, pc: ReaderPc, sent: seq<StreamEvent>)

  /** `Peeking` and `PeekFailed` are streamAttemptOnce, the others forwardStream. */
  datatype ForwarderPc =
    | Peeking
    | PeekFailed(err: Error)
    | Holding(ev: StreamEvent)
    | Pulling
    | Finished(aborted: bool)

  datatype Forwarder = Forwarder(
    pc: ForwarderPc, taken: nat, fwd: seq<StreamEvent>, lastErr: Option<Error>, releases: seq<Option<Error>>)
  {
    predicate Committed() {
      pc.Holding? || pc.Pulling? || pc.Finished?
    }
  }

  datatype Frame = DataFrame(chunk: Chunk) | ErrorFrame | DoneFrame

  datatype Why = Closed | UpstreamErr | EncodeErr | WriteErr

  datatype HandlerPc = Reading | Ending(why: Why) | Ended(why: Why, done: bool)

  datatype Handler = Handler(pc: HandlerPc, got: nat, frames: seq<Frame>, writeFailed: bool)

  datatype State = State(cancelled: bool, r: Reader, f: Forwarder, h: Handler)

  const INIT := State(
    false, Reader(0, NO_META, Scanning, []), Forwarder(Peeking, 0, [], None, []), Handler(Reading, 0, [], false))

  datatype Label =
    | Cancel
    | ReaderStep
    | ReaderAbort
    | ReaderTear
    | Peek
    | PeekCancel
    | Forward
    | ForwardAbort
    | Handle(encodes: bool, written: bool)

  // ---- Steps ----

  function ReaderNext(cfg: Config, cancelled: bool, room: bool, r: Reader): Reader {
    match r.pc
    case Scanning =>
      if |cfg.lines| <= r.pos then
        r.(pc := if cancelled then Exited(Aborted) else Sending(ErrEvent(UPSTREAM_FAULT), true))
      else
        var (meta', action) := HandleLine(cfg.vendor, r.meta, cfg.lines[r.pos]);
        var pc' :=
          match action
          case Skip => Scanning
          case Emit(c) => Sending(ChunkEvent(c), false)
          case Fail(e) => Sending(ErrEvent(e), true)
          case Stop => Exited(Terminator);
        Reader(r.pos + 1, meta', pc', r.sent)
    case Sending(ev, last) =>
      if room then r.(sent := r.sent + [ev], pc := if last then Exited(AfterError) else Scanning) else r
    case Exited(_) => r
  }

  function Release(f: Forwarder, pc': ForwarderPc, obs: Option<Error>): Forwarder {
    f.(pc := pc', releases := f.releases + [obs])
  }

  function PeekNext(r: Reader, f: Forwarder): Forwarder {
    if !f.pc.Peeking? then
      f
    else if f.taken < |r.sent| then
      var ev := r.sent[f.taken];
      var f' := f.(taken := f.taken + 1);
      if ev.ErrEvent? then Release(f', PeekFailed(ev.err), BreakerObservation(Some(ev.err))) else f'.(pc := Holding(ev))
    else if r.pc.Exited? then
      Release(f, PeekFailed(UPSTREAM_FAULT), BreakerObservation(Some(UPSTREAM_FAULT)))
    else
      f
  }

  function ForwardNext(r: Reader, room: bool, f: Forwarder): Forwarder {
    match f.pc
    case Holding(ev) =>
      if room then
        f.(pc := Pulling, fwd := f.fwd + [ev], lastErr := if ev.ErrEvent? then Some(ev.err) else f.lastErr)
      else
        f
    case Pulling =>
      if f.taken < |r.sent| then f.(pc := Holding(r.sent[f.taken]), taken := f.taken + 1)
      else if r.pc.Exited? then Release(f, Finished(false), BreakerObservation(f.lastErr))
      else f
    case _ => f
  }

  /** The final status is 200 unless the loop ended on an error frame. */
  predicate StatusOk(why: Why) {
    why == Closed || why == WriteErr
  }

  /** The handler's loop body, then the closing `[DONE]`. */
  function HandlerNext(cancelled: bool, f: Forwarder, h: Handler, encodes: bool, written: bool): Handler {
    match h.pc
    case Reading =>
      if h.got < |f.fwd| then
        var ev := f.fwd[h.got];
        if ev.ErrEvent? || !encodes then
          var why := if ev.ErrEvent? then UpstreamErr else EncodeErr;
          Handler(Ending(why), h.got + 1, if written then h.frames + [ErrorFrame] else h.frames, !written)
        else if written then
          h.(got := h.got + 1, frames := h.frames + [DataFrame(ev.chunk)])
        else
          Handler(Ending(WriteErr), h.got + 1, h.frames, true)
      else if f.pc.Finished? then
        h.(pc := Ending(Closed))
      else
        h
    case Ending(why) =>
      if !cancelled && StatusOk(why) then
        h.(pc := Ended(why, written),
           frames := if written then h.frames + [DoneFrame] else h.frames,
           writeFailed := h.writeFailed || !written)
      else
        h.(pc := Ended(why, false))
    case Ended(_, _) => h
  }

  /** The line at this position has a payload: torn, it does not decode. */
  predicate AtData(cfg: Config, pos: nat) {
    pos < |cfg.lines| && DataOf(cfg.lines[pos]).Some?
  }

  function Next(cfg: Config, s: State, l: Label): State {
    match l
    case Cancel => s.(cancelled := true)
    case ReaderStep => s.(r := ReaderNext(cfg, s.cancelled, |s.r.sent| < s.f.taken + CAPACITY, s.r))
    case ReaderAbort => if s.cancelled && !s.r.pc.Exited? then s.(r := s.r.(pc := Exited(Aborted))) else s
    case ReaderTear =>
      if s.cancelled && s.r.pc.Scanning? && AtData(cfg, s.r.pos) then
        s.(r := s.r.(pc := Sending(ErrEvent(UPSTREAM_FAULT), true)))
      else
        s
    case Peek => s.(f := PeekNext(s.r, s.f))
    case PeekCancel =>
      if s.cancelled && s.f.pc.Peeking? then s.(f := Release(s.f, PeekFailed(ContextError), None)) else s
    case Forward => s.(f := ForwardNext(s.r, |s.f.fwd| < s.h.got + CAPACITY, s.f))
    case ForwardAbort =>
      if s.cancelled && s.f.pc.Holding? then s.(f := Release(s.f, Finished(true), None)) else s
    case Handle(encodes, written) =>
      if s.f.Committed() then s.(h := HandlerNext(s.cancelled, s.f, s.h, encodes, written)) else s
  }

  function Run(cfg: Config, s: State, labels: seq<Label>): State
    decreases |labels|
  {
    if labels == [] then s else Run(cfg, Next(cfg, s, labels[0]), labels[1..])
  }

  /** The state after a run from the start of an attempt. */
  function Exec(cfg: Config, labels: seq<Label>): State {
    Run(cfg, INIT, labels)
  }

  // ---- The invariant, process by process ----

  /** The meaning of the whole body. */
  function Body(cfg: Config): Transcript {
    ReadFrom(cfg.vendor, NO_META, cfg.lines)
  }

  ghost predicate ReaderInv(cfg: Config, cancelled: bool, r: Reader) {
    && r.pos <= |cfg.lines|
    && var rest := ReadFrom(cfg.vendor, r.meta, cfg.lines[r.pos..]);
       match r.pc
       case Scanning => Remaining(Body(cfg), r.sent, rest)
       case Sending(ev, false) => Remaining(Body(cfg), r.sent + [ev], rest)
       case Sending(ev, true) =>
         || Delivers(Body(cfg), r.sent + [ev], AfterError)
         || (cancelled && r.sent <= Body(cfg).events && ev == ErrEvent(UPSTREAM_FAULT))
       case Exited(how) =>
         || (Delivers(Body(cfg), r.sent, how) && (how == Aborted ==> cancelled))
         || (cancelled && Torn(Body(cfg), r.sent))
  }

  function LastErr(events: seq<StreamEvent>): Option<Error> {
    if events == [] then None
    else if events[|events| - 1].ErrEvent? then Some(events[|events| - 1].err)
    else LastErr(events[..|events| - 1])
  }

  ghost predicate ForwarderInv(cancelled: bool, r: Reader, f: Forwarder) {
    && f.taken <= |r.sent|
    && f.lastErr == LastErr(f.fwd)
    && (f.Committed() ==> 0 < f.taken && r.sent[0].ChunkEvent?)
    && match f.pc
       case Peeking => f.taken == 0 && f.fwd == [] && f.releases == []
       case PeekFailed(e) =>
         && f.fwd == []
         && f.releases == [BreakerObservation(Some(e))]
         && (|| (r.sent != [] && r.sent[0] == ErrEvent(e))
             || (e == UPSTREAM_FAULT && r.pc.Exited? && r.sent == [])
             || (e == ContextError && cancelled))
       case Holding(ev) => f.fwd + [ev] == r.sent[..f.taken] && f.releases == []
       case Pulling => f.fwd == r.sent[..f.taken] && f.releases == []
       case Finished(aborted) =>
         if aborted then cancelled && f.fwd <= r.sent && f.releases == [None]
         else r.pc.Exited? && f.fwd == r.sent && f.releases == [BreakerObservation(f.lastErr)]
  }

  function DataFrames(events: seq<StreamEvent>): (fs: seq<Frame>)
    requires AllChunks(events)
    ensures |fs| == |events|
    ensures forall i :: 0 <= i < |events| ==> fs[i] == DataFrame(events[i].chunk)
  {
    seq(|events|, i requires 0 <= i < |events| => DataFrame(events[i].chunk))
  }

  /** The client was shown the first `n` events and then `tail`. */
  ghost predicate Shown(f: Forwarder, h: Handler, n: int, tail: seq<Frame>) {
    0 <= n <= |f.fwd| && AllChunks(f.fwd[..n]) && h.frames == DataFrames(f.fwd[..n]) + tail
  }

  ghost predicate EndInv(f: Forwarder, h: Handler, why: Why, tail: seq<Frame>) {
    match why
    case Closed => Shown(f, h, h.got, tail) && f.pc.Finished? && h.got == |f.fwd|
    case WriteErr =>
      h.writeFailed && Shown(f, h, h.got - 1, tail) && h.got <= |f.fwd| && f.fwd[h.got - 1].ChunkEvent?
    case EncodeErr => tail == [] && Shown(f, h, h.got - 1, if h.writeFailed then [] else [ErrorFrame])
    case UpstreamErr =>
      && tail == [] && Shown(f, h, h.got - 1, if h.writeFailed then [] else [ErrorFrame])
      && h.got <= |f.fwd| && f.fwd[h.got - 1].ErrEvent?
  }

  ghost predicate HandlerInv(cfg: Config, cancelled: bool, f: Forwarder, h: Handler) {
    && h.got <= |f.fwd|
    && match h.pc
       case Reading => !h.writeFailed && Shown(f, h, h.got, [])
       case Ending(why) => EndInv(f, h, why, []) && (why == Closed ==> !h.writeFailed)
       case Ended(why, done) =>
         && EndInv(f, h, why, if done then [DoneFrame] else [])
         && (done && why == Closed ==> !h.writeFailed && Body(cfg).complete && f.fwd == Body(cfg).events)
         && (!cancelled && StatusOk(why) && !h.writeFailed ==> done)
  }

  ghost predicate Inv(cfg: Config, s: State) {
    && ReaderInv(cfg, s.cancelled, s.r)
    && ForwarderInv(s.cancelled, s.r, s.f)
    && HandlerInv(cfg, s.cancelled, s.f, s.h)
  }

  // ---- Each process keeps it ----

  lemma ReaderKeeps(cfg: Config, cancelled: bool, room: bool, r: Reader)
    requires ReaderInv(cfg, cancelled, r)
    ensures var r' := ReaderNext(cfg, cancelled, room, r);
            ReaderInv(cfg, cancelled, r') && r.sent <= r'.sent && (r.pc.Exited? ==> r' == r)
  {
    if r.pc.Scanning? {
      RemainingStep(Body(cfg), r.sent, cfg.vendor, r.meta, cfg.lines[r.pos..]);
      if r.pos < |cfg.lines| {
        assert cfg.lines[r.pos..][1..] == cfg.lines[r.pos + 1..];
      }
    }
  }

  lemma SentPrefix(cfg: Config, cancelled: bool, r: Reader)
    requires ReaderInv(cfg, cancelled, r)
    ensures r.sent <= Body(cfg).events || (cancelled && r.pc.Exited? && Torn(Body(cfg), r.sent))
    ensures r.pc.Exited? && !cancelled ==> r.sent == Body(cfg).events
  {
  }

  /** A reader that only appends, and not after it exited, does not disturb the forwarder. */
  lemma ForwarderStable(cancelled: bool, r: Reader, r': Reader, f: Forwarder)
    requires ForwarderInv(cancelled, r, f)
    requires r.sent <= r'.sent && (r.pc.Exited? ==> r' == r)
    ensures ForwarderInv(cancelled, r', f)
  {
    assert r'.sent[..f.taken] == r.sent[..f.taken];
  }

  lemma PeekKeeps(cancelled: bool, r: Reader, f: Forwarder)
    requires ForwarderInv(cancelled, r, f)
    ensures var f' := PeekNext(r, f);
            ForwarderInv(cancelled, r, f') && f.fwd == f'.fwd && (f.pc.Finished? ==> f' == f)
  {
  }

  lemma ForwardKeeps(cancelled: bool, r: Reader, room: bool, f: Forwarder)
    requires ForwarderInv(cancelled, r, f)
    ensures var f' := ForwardNext(r, room, f);
            ForwarderInv(cancelled, r, f') && f.fwd <= f'.fwd && (f.pc.Finished? ==> f' == f)
  {
    if f.pc.Holding? {
      assert (f.fwd + [f.pc.ev])[..|f.fwd|] == f.fwd;
    }
  }

  /** A forwarder that only appends, and not after it finished, does not disturb the handler. */
  lemma HandlerStable(cfg: Config, cancelled: bool, f: Forwarder, f': Forwarder, h: Handler)
    requires HandlerInv(cfg, cancelled, f, h)
    requires f.fwd <= f'.fwd && (f.pc.Finished? ==> f' == f)
    requires h.pc.Ended? && h.pc.done && h.pc.why == Closed ==> f' == f
    ensures HandlerInv(cfg, cancelled, f', h)
  {
    assert f'.fwd[..h.got] == f.fwd[..h.got];
    if 0 < h.got {
      assert f'.fwd[..h.got - 1] == f.fwd[..h.got - 1];
    }
  }

  lemma ReadingKeeps(cfg: Config, cancelled: bool, f: Forwarder, h: Handler, encodes: bool, written: bool)
    requires HandlerInv(cfg, cancelled, f, h) && h.pc.Reading?
    ensures HandlerInv(cfg, cancelled, f, HandlerNext(cancelled, f, h, encodes, written))
  {
    hide ReadFrom;
    if h.got < |f.fwd| {
      assert f.fwd[..h.got + 1] == f.fwd[..h.got] + [f.fwd[h.got]];
    }
  }

  lemma EndingKeeps(cfg: Config, s: State, encodes: bool, written: bool)
    requires Inv(cfg, s) && s.h.pc.Ending?
    ensures HandlerInv(cfg, s.cancelled, s.f, HandlerNext(s.cancelled, s.f, s.h, encodes, written))
  {
    hide ReadFrom, LastErr;
    if s.h.pc.why == Closed && !s.cancelled {
      SentPrefix(cfg, s.cancelled, s.r);
      assert s.f.fwd[..s.h.got] == s.f.fwd;
      ErrorOnlyAtEnd(cfg.vendor, NO_META, cfg.lines);
    }
  }

  lemma ReaderLabelKeepsInv(cfg: Config, s: State, l: Label)
    requires Inv(cfg, s) && (l.ReaderStep? || l.ReaderAbort? || l.ReaderTear?)
    ensures Inv(cfg, Next(cfg, s, l))
  {
    hide ReaderNext, HandlerInv, ForwarderInv, ReadFrom;
    ReaderKeeps(cfg, s.cancelled, |s.r.sent| < s.f.taken + CAPACITY, s.r);
    SentPrefix(cfg, s.cancelled, s.r);
    ForwarderStable(s.cancelled, s.r, Next(cfg, s, l).r, s.f);
  }

  lemma ForwarderLabelKeepsInv(cfg: Config, s: State, l: Label)
    requires Inv(cfg, s) && (l.Peek? || l.PeekCancel? || l.Forward? || l.ForwardAbort?)
    ensures Inv(cfg, Next(cfg, s, l))
  {
    hide ReaderInv, PeekNext, LastErr, ReadFrom;
    PeekKeeps(s.cancelled, s.r, s.f);
    ForwardKeeps(s.cancelled, s.r, |s.f.fwd| < s.h.got + CAPACITY, s.f);
    HandlerStable(cfg, s.cancelled, s.f, Next(cfg, s, l).f, s.h);
  }

  lemma StepKeepsInv(cfg: Config, s: State, l: Label)
    requires Inv(cfg, s)
    ensures Inv(cfg, Next(cfg, s, l))
  {
    match l
    case Cancel =>
    case ReaderStep => ReaderLabelKeepsInv(cfg, s, l);
    case ReaderAbort => ReaderLabelKeepsInv(cfg, s, l);
    case ReaderTear => ReaderLabelKeepsInv(cfg, s, l);
    case Handle(encodes, written) =>
      if s.h.pc.Reading? {
        ReadingKeeps(cfg, s.cancelled, s.f, s.h, encodes, written);
      } else if s.h.pc.Ending? {
        EndingKeeps(cfg, s, encodes, written);
      }
    case _ => ForwarderLabelKeepsInv(cfg, s, l);
  }

  lemma {:induction false} RunKeepsInv(cfg: Config, s: State, labels: seq<Label>)
    requires Inv(cfg, s)
    ensures Inv(cfg, Run(cfg, s, labels))
    decreases |labels|
  {
    if labels == [] {
    } else {
      StepKeepsInv(cfg, s, labels[0]);
      RunKeepsInv(cfg, Next(cfg, s, labels[0]), labels[1..]);
    }
  }

  lemma ReachableInv(cfg: Config, labels: seq<Label>)
    ensures Inv(cfg, Exec(cfg, labels))
  {
    assert cfg.lines[0..] == cfg.lines;
    RunKeepsInv(cfg, INIT, labels);
  }

  // ---- Theorems over every run ----

  /** The client has seen the whole answer: every chunk the upstream sent before its own
      terminator, in order, then `[DONE]`. */
  ghost predicate LooksComplete(cfg: Config, s: State) {
    && Body(cfg).complete
    && AllChunks(Body(cfg).events)
    && s.h.frames == DataFrames(Body(cfg).events) + [DoneFrame]
  }

  /** The client has seen every chunk the upstream sent before it failed, in order, then one
      error frame. */
  ghost predicate LooksFailed(cfg: Config, s: State) {
    var events := Body(cfg).events;
    && events != []
    && AllChunks(events[..|events| - 1])
    && s.h.frames == DataFrames(events[..|events| - 1]) + [ErrorFrame]
  }

  /** `[DONE]` on the wire means a complete answer exactly when no client write failed. */
  lemma DoneMeansComplete(cfg: Config, labels: seq<Label>)
    ensures var s := Exec(cfg, labels);
            DoneFrame in s.h.frames ==> (LooksComplete(cfg, s) <==> !s.h.writeFailed)
  {
    hide ReadFrom, LastErr, Run;
    var s := Exec(cfg, labels);
    ReachableInv(cfg, labels);
    ForwardedPrefix(cfg, s);
    ErrorOnlyAtEnd(cfg.vendor, NO_META, cfg.lines);
    if DoneFrame in s.h.frames && s.h.pc.Ended? && s.h.pc.why == Closed {
      assert s.f.fwd[..s.h.got] == s.f.fwd;
    }
  }

  lemma ForwardedPrefix(cfg: Config, s: State)
    requires Inv(cfg, s)
    ensures s.f.fwd <= Body(cfg).events || (s.cancelled && s.r.pc.Exited? && Torn(Body(cfg), s.f.fwd))
  {
    SentPrefix(cfg, s.cancelled, s.r);
  }

  /** A truncated, malformed or failed upstream stream never looks complete: without a failed
      write, `[DONE]` is on the wire only if the upstream's own terminator came and every payload
      before it decoded to something other than an error. */
  lemma NoFalseDone(cfg: Config, labels: seq<Label>)
    requires !WellEnded(cfg.vendor, cfg.lines)
    ensures var s := Exec(cfg, labels);
            DoneFrame in s.h.frames ==> s.h.writeFailed
  {
    hide Run, ReadFrom, WellEnded;
    CompleteExact(cfg.vendor, NO_META, cfg.lines);
    DoneMeansComplete(cfg, labels);
  }

  /** And with an OpenAI upstream, once the handler is through undisturbed, the client has every
      chunk that decodes before the terminator, in order, then `[DONE]`. */
  lemma OpenAiOnTheWire(cfg: Config, labels: seq<Label>, i: nat)
    requires cfg.vendor.OpenAi? && OpenAiEndsAt(cfg.vendor.decodeChunk, cfg.lines, i)
    requires var s := Exec(cfg, labels);
             s.h.pc.Ended? && s.h.pc.why != EncodeErr && !s.cancelled && !s.h.writeFailed
    ensures var chunks := Decoded(cfg.vendor.decodeChunk, cfg.lines[..i]);
            AllChunks(chunks) && Exec(cfg, labels).h.frames == DataFrames(chunks) + [DoneFrame]
  {
    hide Run, ReadFrom, Decoded, OpenAiEndsAt;
    OpenAiEvents(cfg.vendor.decodeChunk, cfg.lines, i);
    FinishedRunIsExact(cfg, labels);
  }

  /** The other direction: once the handler is through, and nothing went wrong on the
      client's side, `[DONE]` was written if and only if the upstream finished its answer;
      if it did not, the client got all its chunks and one error frame. */
  lemma FinishedRunIsExact(cfg: Config, labels: seq<Label>)
    requires var s := Exec(cfg, labels);
             s.h.pc.Ended? && s.h.pc.why != EncodeErr && !s.cancelled && !s.h.writeFailed
    ensures var s := Exec(cfg, labels);
            && (DoneFrame in s.h.frames <==> Body(cfg).complete)
            && (if Body(cfg).complete then LooksComplete(cfg, s) else LooksFailed(cfg, s))
  {
    hide ReadFrom, LastErr, Run;
    var s := Exec(cfg, labels);
    ReachableInv(cfg, labels);
    ForwardedPrefix(cfg, s);
    ErrorOnlyAtEnd(cfg.vendor, NO_META, cfg.lines);
    DoneMeansComplete(cfg, labels);
    assert s.h.pc.done ==> s.h.frames[|s.h.frames| - 1] == DoneFrame;
    if s.h.pc.why == UpstreamErr {
      assert s.f.fwd[s.h.got - 1] == Body(cfg).events[s.h.got - 1];
      assert s.f.fwd[..s.h.got - 1] == Body(cfg).events[..s.h.got - 1];
    }
  }

  /** In every state, what was received downstream is a prefix of this attempt's events, after a
      cancellation possibly with the error for a torn line; and nothing is received before the
      router has seen a first chunk. */
  lemma ReceivedPrefix(cfg: Config, labels: seq<Label>)
    ensures var s := Exec(cfg, labels);
            && (s.f.fwd <= Body(cfg).events || (s.cancelled && Torn(Body(cfg), s.f.fwd)))
            && s.h.got <= |s.f.fwd|
            && (if s.f.Committed() then Body(cfg).events != [] && Body(cfg).events[0].ChunkEvent?
                else s.f.fwd == [] && s.h.frames == [])
  {
    hide ReadFrom, LastErr, Run;
    var s := Exec(cfg, labels);
    ReachableInv(cfg, labels);
    SentPrefix(cfg, s.cancelled, s.r);
    ForwardedPrefix(cfg, s);
  }

  lemma {:induction false} LastErrIsEvent(events: seq<StreamEvent>)
    ensures LastErr(events).Some? ==> ErrEvent(LastErr(events).value) in events
  {
    if events == [] {
    } else {
      LastErrIsEvent(events[..|events| - 1]);
    }
  }

  /** The attempt's breaker permit is released once, when the peek failed or the forwarder
      finished, and never before. It is released as a failure only for a retryable error the
      upstream itself produced, for a stream that ended before its first event, or, under that
      same sentinel, after a cancellation. */
  lemma PermitReleasedOnce(cfg: Config, labels: seq<Label>)
    ensures var s := Exec(cfg, labels);
            && s.f.releases ==
               (match s.f.pc
                case PeekFailed(e) => [BreakerObservation(Some(e))]
                case Finished(aborted) => [if aborted then None else BreakerObservation(s.f.lastErr)]
                case _ => [])
            && (s.f.pc == PeekFailed(ContextError) || s.f.pc == Finished(true) ==> s.f.releases == [None])
            && (s.f.releases != [] && s.f.releases[0].Some? ==>
                  var e := s.f.releases[0].value;
                  && IsRetryable(e)
                  && (|| ErrEvent(e) in Body(cfg).events
                      || (e == UPSTREAM_FAULT && (Body(cfg).events == [] || s.cancelled))))
  {
    hide ReadFrom, LastErr, Run, ReaderInv, HandlerInv, IsRetryable;
    FaultIsRetryable();
    var s := Exec(cfg, labels);
    ReachableInv(cfg, labels);
    SentPrefix(cfg, s.cancelled, s.r);
    LastErrIsEvent(s.f.fwd);
    ForwardedPrefix(cfg, s);
    if s.f.fwd <= Body(cfg).events {
      assert forall i :: 0 <= i < |s.f.fwd| ==> s.f.fwd[i] == Body(cfg).events[i];
    }
  }

  lemma RunCons(cfg: Config, s: State, l: Label, rest: seq<Label>)
    ensures Run(cfg, s, [l] + rest) == Run(cfg, Next(cfg, s, l), rest)
  {
    assert ([l] + rest)[1..] == rest;
  }

  /** A body of one chunk and the terminator. */
  lemma SampleBody(c: Chunk) returns (cfg: Config)
    ensures |cfg.lines| == 2
    ensures HandleLine(cfg.vendor, NO_META, cfg.lines[0]) == (NO_META, Emit(c))
    ensures HandleLine(cfg.vendor, NO_META, cfg.lines[1]) == (NO_META, Stop)
    ensures Body(cfg) == Transcript([ChunkEvent(c)], true)
  {
    var decode := (d: string) => ChunkJson(c);
    var one, two := "data:x", "data:[DONE]";
    cfg := Config(OpenAi(decode), [one, two]);
    assert DataOf(one) == Some("x") by {
      assert one[0] != ':' && one[..5] == "data:" && one[5..] == "x" && one[5..][0] != ' ';
    }
    assert DataOf(two) == Some("[DONE]") by {
      assert two[0] != ':' && two[..5] == "data:" && two[5..] == "[DONE]" && two[5..][0] != ' ';
    }
    assert cfg.lines[1..] == [two];
    assert ReadFrom(cfg.vendor, NO_META, [two]) == Transcript([], true);
  }

  /** The reader sends the first chunk, the router commits and forwards it, and the handler's
      write of it fails. */
  const FIRST_WRITE_FAILS :=
    [ReaderStep] + ([ReaderStep] + ([Peek] + ([Forward] + ([Handle(true, false)] + ([Handle(true, true)] + [])))))

  lemma FirstWriteFails(cfg: Config, c: Chunk)
    requires cfg.lines != [] && HandleLine(cfg.vendor, NO_META, cfg.lines[0]) == (NO_META, Emit(c))
    ensures var s := Exec(cfg, FIRST_WRITE_FAILS);
            && s.f.fwd == [ChunkEvent(c)] && !s.cancelled
            && s.h == Handler(Ended(WriteErr, true), 1, [DoneFrame], true)
  {
    hide HandleLine;
    var h0, h1 := Handle(true, false), Handle(true, true);
    var s1 := Next(cfg, INIT, ReaderStep);
    var s2 := Next(cfg, s1, ReaderStep);
    var s3 := Next(cfg, s2, Peek);
    var s4 := Next(cfg, s3, Forward);
    var s5 := Next(cfg, s4, h0);
    RunCons(cfg, s5, h1, []);
    RunCons(cfg, s4, h0, [h1] + []);
    RunCons(cfg, s3, Forward, [h0] + ([h1] + []));
    RunCons(cfg, s2, Peek, [Forward] + ([h0] + ([h1] + [])));
    RunCons(cfg, s1, ReaderStep, [Peek] + ([Forward] + ([h0] + ([h1] + []))));
    RunCons(cfg, INIT, ReaderStep, [ReaderStep] + ([Peek] + ([Forward] + ([h0] + ([h1] + [])))));
  }

  /** The property needs its condition: after one failed chunk write the handler still
      writes `[DONE]`, and the client misses the chunk. */
  lemma FailedWriteThenDone(c: Chunk) returns (cfg: Config, labels: seq<Label>)
    ensures Body(cfg) == Transcript([ChunkEvent(c)], true)
    ensures Exec(cfg, labels).h.frames == [DoneFrame]
  {
    cfg := SampleBody(c);
    labels := FIRST_WRITE_FAILS;
    FirstWriteFails(cfg, c);
  }

  /** A caller that goes away during the peek is meant to be a clean observation, but when
      the reader has already closed its channel the select may take that branch instead,
      and the cancellation is reported to the breaker as an upstream failure. */
  lemma CancelledPeekMayCountAsFailure(cfg: Config)
    ensures var s := Exec(cfg, [Cancel] + ([ReaderAbort] + ([Peek] + [])));
            s.r.sent == [] && s.f.releases == [Some(UPSTREAM_FAULT)]
  {
    var s1 := Next(cfg, INIT, Cancel);
    var s2 := Next(cfg, s1, ReaderAbort);
    RunCons(cfg, s2, Peek, []);
    RunCons(cfg, s1, ReaderAbort, [Peek] + []);
    RunCons(cfg, INIT, Cancel, [ReaderAbort] + ([Peek] + []));
  }

  /** The same happens when the cancelled read tears a line, and the reader wins the race to send
      the error. */
  lemma TornLineMayCountAsFailure(cfg: Config)
    requires AtData(cfg, 0)
    ensures var s := Exec(cfg, [Cancel] + ([ReaderTear] + ([ReaderStep] + ([Peek] + []))));
            s.r.sent == [ErrEvent(UPSTREAM_FAULT)] && s.f.releases == [Some(UPSTREAM_FAULT)]
  {
    var s1 := Next(cfg, INIT, Cancel);
    var s2 := Next(cfg, s1, ReaderTear);
    var s3 := Next(cfg, s2, ReaderStep);
    RunCons(cfg, s3, Peek, []);
    RunCons(cfg, s2, ReaderStep, [Peek] + []);
    RunCons(cfg, s1, ReaderTear, [ReaderStep] + ([Peek] + []));
    RunCons(cfg, INIT, Cancel, [ReaderTear] + ([ReaderStep] + ([Peek] + [])));
  }

  lemma {:induction false} SentGrows(cfg: Config, s: State, labels: seq<Label>)
    ensures s.r.sent <= Run(cfg, s, labels).r.sent
    decreases |labels|
  {
    hide HandlerNext, PeekNext, ForwardNext, HandleLine;
    if labels == [] {
    } else {
      SentGrows(cfg, Next(cfg, s, labels[0]), labels[1..]);
    }
  }

  /** The peek failed, and the breaker was told of a failure. */
  predicate PeekFailure(s: State) {
    s.f.pc.PeekFailed? && s.f.releases != [] && s.f.releases[0].Some?
  }

  /** The caller is gone while the router peeks. Some continuation counts that against the
      provider, exactly as long as the reader has sent nothing, or if what it sent first is a
      retryable error. */
  lemma CancelledPeekExact(cfg: Config, labels: seq<Label>)
    requires var s := Exec(cfg, labels); s.cancelled && s.f.pc.Peeking?
    ensures var s := Exec(cfg, labels);
            (exists more :: PeekFailure(Run(cfg, s, more))) <==>
            s.r.sent == [] || (s.r.sent[0].ErrEvent? && IsRetryable(s.r.sent[0].err))
  {
    hide Run, ReaderInv, HandlerInv, IsRetryable;
    var s := Exec(cfg, labels);
    ReachableInv(cfg, labels);
    FaultIsRetryable();
    if s.r.sent == [] {
      var s1 := Next(cfg, s, ReaderAbort);
      RunCons(cfg, s, ReaderAbort, [Peek] + []);
      RunCons(cfg, s1, Peek, []);
      RunNone(cfg, Next(cfg, s1, Peek));
      assert PeekFailure(Run(cfg, s, [ReaderAbort] + ([Peek] + [])));
    } else if s.r.sent[0].ErrEvent? && IsRetryable(s.r.sent[0].err) {
      RunCons(cfg, s, Peek, []);
      RunNone(cfg, Next(cfg, s, Peek));
      assert PeekFailure(Run(cfg, s, [Peek] + []));
    } else {
      forall more
        ensures !PeekFailure(Run(cfg, s, more))
      {
        SentGrows(cfg, s, more);
        RunKeepsInv(cfg, s, more);
      }
    }
  }

  lemma FaultIsRetryable()
    ensures IsRetryable(UPSTREAM_FAULT) && !IsRetryable(ContextError)
  {
  }

  lemma RunNone(cfg: Config, s: State)
    ensures Run(cfg, s, []) == s
  {
  }
}
