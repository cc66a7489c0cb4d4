/** A caller that goes away while its stream is being forwarded: exactly when that can still be
    counted against the provider. */
module Cancellation {
  import opened Provider
  import opened Sse
  import opened Pipeline

  /** Chunks come before an error, and after an error the reader is through. */
  predicate ChunksFirst(r: Reader) {
    && (r.pc.Sending? ==> (r.pc.last <==> r.pc.ev.ErrEvent?))
    && (r.pc == Exited(AfterError) ==> r.sent != [] && AllChunks(r.sent[..|r.sent| - 1]))
    && (r.pc != Exited(AfterError) ==> AllChunks(r.sent))
  }

  /** The router's channel never holds more than its capacity. */
  predicate WithinCapacity(s: State) {
    |s.f.fwd| <= s.h.got + CAPACITY
  }

  lemma StepKeepsChunksFirst(cfg: Config, s: State, l: Label)
    requires ChunksFirst(s.r)
    ensures ChunksFirst(Next(cfg, s, l).r)
  {
    hide HandleLine, PeekNext, ForwardNext, HandlerNext;
  }

  lemma StepKeepsCapacity(cfg: Config, s: State, l: Label)
    requires WithinCapacity(s)
    ensures WithinCapacity(Next(cfg, s, l))
  {
    hide ReaderNext;
  }

  ghost predicate Reached(cfg: Config, s: State) {
    Inv(cfg, s) && ChunksFirst(s.r) && WithinCapacity(s)
  }

  lemma StepReaches(cfg: Config, s: State, l: Label)
    requires Reached(cfg, s)
    ensures Reached(cfg, Next(cfg, s, l))
  {
    hide Inv, ChunksFirst, WithinCapacity, Next;
    StepKeepsInv(cfg, s, l);
    StepKeepsChunksFirst(cfg, s, l);
    StepKeepsCapacity(cfg, s, l);
  }

  lemma {:induction false} RunReaches(cfg: Config, s: State, labels: seq<Label>)
    requires Reached(cfg, s)
    ensures Reached(cfg, Run(cfg, s, labels))
    decreases |labels|
  {
    hide Reached, Next;
    if labels == [] {
    } else {
      StepReaches(cfg, s, labels[0]);
      RunReaches(cfg, Next(cfg, s, labels[0]), labels[1..]);
    }
  }

  // ---- How far the reader has to get ----

  /** Some line is left that has a payload, and so can be torn. */
  predicate DataAhead(cfg: Config, pos: nat)
    decreases |cfg.lines| - pos
  {
    pos < |cfg.lines| && (DataOf(cfg.lines[pos]).Some? || DataAhead(cfg, pos + 1))
  }

  predicate Counts(e: Option<Error>) {
    e.Some? && IsRetryable(e.value)
  }

  /** With the context cancelled, the least number of events the reader will have sent if its
      stream ends in a retryable error; None if it cannot. */
  function Goal(cfg: Config, r: Reader): Option<nat> {
    match r.pc
    case Scanning => if DataAhead(cfg, r.pos) then Some(|r.sent| + 1) else None
    case Sending(ev, false) => if DataAhead(cfg, r.pos) then Some(|r.sent| + 2) else None
    case Sending(ev, true) => if ev.ErrEvent? && IsRetryable(ev.err) then Some(|r.sent| + 1) else None
    case Exited(_) => if Counts(LastErr(r.sent)) then Some(|r.sent|) else None
  }

  predicate NoNearer(before: Option<nat>, after: Option<nat>) {
    after.Some? ==> before.Some? && before.value <= after.value
  }

  lemma {:induction false} NoErr(events: seq<StreamEvent>)
    requires AllChunks(events)
    ensures LastErr(events) == None
  {
    if events == [] {
    } else {
      NoErr(events[..|events| - 1]);
    }
  }

  lemma ErrLast(events: seq<StreamEvent>, e: Error)
    ensures LastErr(events + [ErrEvent(e)]) == Some(e)
  {
  }

  /** A line without payload is skipped. */
  lemma PlainLine(cfg: Config, pos: nat, meta: StreamMeta)
    requires pos < |cfg.lines| && !AtData(cfg, pos)
    ensures HandleLine(cfg.vendor, meta, cfg.lines[pos]) == (meta, Skip)
  {
  }

  /** No step of the reader brings a failure nearer than it was. */
  lemma ReaderGoal(cfg: Config, room: bool, r: Reader)
    requires ChunksFirst(r)
    ensures NoNearer(Goal(cfg, r), Goal(cfg, ReaderNext(cfg, true, room, r)))
  {
    hide HandleLine, IsRetryable, LastErr;
    match r.pc
    case Scanning =>
      NoErr(r.sent);
      if r.pos < |cfg.lines| && !AtData(cfg, r.pos) {
        PlainLine(cfg, r.pos, r.meta);
      }
    case Sending(ev, last) =>
      if last {
        ErrLast(r.sent, ev.err);
      }
    case Exited(_) =>
  }

  lemma StepGoal(cfg: Config, s: State, l: Label)
    requires ChunksFirst(s.r) && s.cancelled
    ensures var s' := Next(cfg, s, l);
            && s'.cancelled && NoNearer(Goal(cfg, s.r), Goal(cfg, s'.r))
            && (!s.h.pc.Reading? ==> !s'.h.pc.Reading? && s'.h.got == s.h.got)
  {
    hide ReaderNext, LastErr, PeekNext, ForwardNext, IsRetryable;
    ReaderGoal(cfg, |s.r.sent| < s.f.taken + CAPACITY, s.r);
    if !s.r.pc.Exited? {
      NoErr(s.r.sent);
    }
  }

  lemma {:induction false} RunGoal(cfg: Config, s: State, labels: seq<Label>)
    requires ChunksFirst(s.r) && s.cancelled
    ensures var s' := Run(cfg, s, labels);
            && NoNearer(Goal(cfg, s.r), Goal(cfg, s'.r))
            && (!s.h.pc.Reading? ==> s'.h.got == s.h.got)
    decreases |labels|
  {
    hide Next, Goal, ChunksFirst;
    if labels == [] {
    } else {
      StepGoal(cfg, s, labels[0]);
      StepKeepsChunksFirst(cfg, s, labels[0]);
      RunGoal(cfg, Next(cfg, s, labels[0]), labels[1..]);
    }
  }

  // ---- Getting there ----

  /** The forwarder is through, and the breaker was told of a failure. */
  predicate ForwardFailure(s: State) {
    s.f.pc.Finished? && s.f.releases != [] && s.f.releases[0].Some?
  }

  /** The stream is committed and not yet through. */
  predicate Forwarding(f: Forwarder) {
    f.pc.Holding? || f.pc.Pulling?
  }

  /** A failure is within reach, and all events up to it find room on the way to the caller. */
  predicate Passable(cfg: Config, s: State) {
    var goal := Goal(cfg, s.r);
    goal.Some? && (s.h.pc.Reading? || goal.value <= s.h.got + CAPACITY)
  }

  /** The step to take next: move an event on if there is one, else let the reader go on. */
  function Drive(cfg: Config, s: State): Label {
    if s.f.pc.Holding? && |s.f.fwd| >= s.h.got + CAPACITY then Handle(true, true)
    else if s.f.pc.Holding? || s.f.taken < |s.r.sent| || s.r.pc.Exited? then Forward
    else if s.r.pc.Scanning? && AtData(cfg, s.r.pos) then ReaderTear
    else ReaderStep
  }

  function ReaderRank(cfg: Config, r: Reader): int {
    match r.pc
    case Scanning => 3 + |cfg.lines| - r.pos
    case Sending(_, false) => 4 + |cfg.lines| - r.pos
    case Sending(_, true) => 2
    case Exited(_) => 1
  }

  function ForwarderRank(s: State): int {
    2 * (|s.r.sent| - s.f.taken) + (if s.f.pc.Holding? then 1 else 0)
  }

  ghost predicate Nearer(cfg: Config, s: State, s': State) {
    || 0 <= ReaderRank(cfg, s'.r) < ReaderRank(cfg, s.r)
    || (s'.r == s.r && 0 <= ForwarderRank(s') < ForwarderRank(s))
    || (s'.r == s.r && ForwarderRank(s') == ForwarderRank(s) && 0 <= |s'.f.fwd| - s'.h.got < |s.f.fwd| - s.h.got)
  }

  /** While an event is held, everything forwarded so far is a chunk. */
  lemma ForwardedChunks(cfg: Config, s: State)
    requires Reached(cfg, s) && s.f.pc.Holding?
    ensures AllChunks(s.f.fwd) && |s.f.fwd| < |s.r.sent| && s.f.taken == |s.f.fwd| + 1
  {
    hide ReaderInv, HandlerInv, LastErr;
    assert |s.f.fwd + [s.f.pc.ev]| == |s.r.sent[..s.f.taken]|;
    forall i | 0 <= i < |s.f.fwd|
      ensures s.f.fwd[i].ChunkEvent?
    {
      assert s.f.fwd[i] == (s.f.fwd + [s.f.pc.ev])[i] == s.r.sent[i];
    }
  }

  /** One step closer, or there. */
  ghost predicate Driven(cfg: Config, s: State, s': State) {
    || ForwardFailure(s')
    || (s'.cancelled && Forwarding(s'.f) && Passable(cfg, s') && Nearer(cfg, s, s'))
  }

  lemma GoalBeyond(cfg: Config, r: Reader)
    ensures Goal(cfg, r).Some? ==> Goal(cfg, r).value >= |r.sent|
  {
  }

  /** The handler makes room: the next event it reads is a chunk. */
  lemma DriveHandler(cfg: Config, s: State)
    requires Reached(cfg, s) && s.cancelled && s.f.pc.Holding? && Passable(cfg, s)
    requires |s.f.fwd| >= s.h.got + CAPACITY
    ensures Driven(cfg, s, Next(cfg, s, Handle(true, true)))
  {
    hide Inv, Goal, ReaderNext, LastErr;
    ForwardedChunks(cfg, s);
    GoalBeyond(cfg, s.r);
    assert s.h.pc.Reading? && s.f.fwd[s.h.got].ChunkEvent?;
  }

  lemma DriveForwarder(cfg: Config, s: State)
    requires Reached(cfg, s) && s.cancelled && Forwarding(s.f) && Passable(cfg, s)
    requires Drive(cfg, s) == Forward
    ensures Driven(cfg, s, Next(cfg, s, Forward))
  {
    hide ReaderInv, HandlerInv, LastErr, IsRetryable, DataAhead;
    if s.f.pc.Pulling? && s.f.taken == |s.r.sent| {
      assert s.f.fwd == s.r.sent;
    }
  }

  lemma DriveReader(cfg: Config, s: State)
    requires Reached(cfg, s) && s.cancelled && s.f.pc.Pulling? && Passable(cfg, s)
    requires s.f.taken == |s.r.sent| && !s.r.pc.Exited?
    ensures Driven(cfg, s, Next(cfg, s, Drive(cfg, s)))
  {
    hide HandlerInv, LastErr, IsRetryable, HandleLine, ReadFrom;
    if s.r.pc.Sending? && s.r.pc.last {
      ErrLast(s.r.sent, s.r.pc.ev.err);
    } else if s.r.pc.Scanning? {
      FaultIsRetryable();
      if !AtData(cfg, s.r.pos) {
        PlainLine(cfg, s.r.pos, s.r.meta);
      }
    }
  }

  /** A run that ends in a failure. */
  lemma {:induction false} ToFailure(cfg: Config, s: State) returns (more: seq<Label>)
    requires Reached(cfg, s) && s.cancelled && Forwarding(s.f) && Passable(cfg, s)
    ensures ForwardFailure(Run(cfg, s, more))
    decreases ReaderRank(cfg, s.r), ForwarderRank(s), |s.f.fwd| - s.h.got
  {
    hide Run, Next, Inv, ForwardFailure, Passable, ReaderRank;
    var l := Drive(cfg, s);
    var s' := Next(cfg, s, l);
    if l.Handle? {
      DriveHandler(cfg, s);
    } else if l == Forward {
      DriveForwarder(cfg, s);
    } else {
      TakenWithin(cfg, s);
      DriveReader(cfg, s);
    }
    if ForwardFailure(s') {
      more := [l] + [];
      RunCons(cfg, s, l, []);
      RunNone(cfg, s');
    } else {
      StepReaches(cfg, s, l);
      var rest := ToFailure(cfg, s');
      more := [l] + rest;
      RunCons(cfg, s, l, rest);
    }
  }

  lemma TakenWithin(cfg: Config, s: State)
    requires Inv(cfg, s)
    ensures s.f.taken <= |s.r.sent|
  {
  }

  lemma InitReached(cfg: Config)
    ensures Reached(cfg, INIT)
  {
    ReachableInv(cfg, []);
    RunNone(cfg, INIT);
  }

  /** The caller is gone while its stream is being forwarded. Some continuation counts that
      against the provider, exactly if the reader can still end in a retryable error (it has one
      to report, has reported one, or has a line left to be torn) and all events up to that error
      fit: the handler still reads, or the channel has room for them. */
  lemma CancelledForwardExact(cfg: Config, labels: seq<Label>)
    requires var s := Exec(cfg, labels); s.cancelled && Forwarding(s.f)
    ensures var s := Exec(cfg, labels);
            (exists more :: ForwardFailure(Run(cfg, s, more))) <==> Passable(cfg, s)
  {
    hide Run, Inv, Goal;
    var s := Exec(cfg, labels);
    InitReached(cfg);
    RunReaches(cfg, INIT, labels);
    if Passable(cfg, s) {
      var more := ToFailure(cfg, s);
    } else {
      forall more
        ensures !ForwardFailure(Run(cfg, s, more))
      {
        RunReaches(cfg, s, more);
        RunGoal(cfg, s, more);
        FailureIsGoal(cfg, Run(cfg, s, more));
      }
    }
  }

  lemma FailureIsGoal(cfg: Config, s: State)
    requires Reached(cfg, s)
    ensures ForwardFailure(s) ==> Goal(cfg, s.r) == Some(|s.f.fwd|)
  {
    hide ReaderInv, HandlerInv, LastErr, DataAhead;
  }

  /** A caller that leaves after the first chunk of a body that is in perfect order: the forwarder
      is documented to release the permit cleanly, and may report a failure. */
  lemma CancelledForwardMayCountAsFailure(c: Chunk) returns (cfg: Config, labels: seq<Label>, more: seq<Label>)
    ensures Body(cfg) == Transcript([ChunkEvent(c)], true)
    ensures var s := Exec(cfg, labels); s.cancelled && Forwarding(s.f)
    ensures ForwardFailure(Run(cfg, Exec(cfg, labels), more))
  {
    hide HandleLine, Run;
    cfg := SampleBody(c);
    labels := [ReaderStep] + ([ReaderStep] + ([Peek] + ([Cancel] + [])));
    var s1 := Next(cfg, INIT, ReaderStep);
    var s2 := Next(cfg, s1, ReaderStep);
    var s3 := Next(cfg, s2, Peek);
    RunCons(cfg, INIT, ReaderStep, [ReaderStep] + ([Peek] + ([Cancel] + [])));
    RunCons(cfg, s1, ReaderStep, [Peek] + ([Cancel] + []));
    RunCons(cfg, s2, Peek, [Cancel] + []);
    RunCons(cfg, s3, Cancel, []);
    RunNone(cfg, Next(cfg, s3, Cancel));
    InitReached(cfg);
    RunReaches(cfg, INIT, labels);
    if !AtData(cfg, 1) {
      PlainLine(cfg, 1, NO_META);
    }
    more := ToFailure(cfg, Exec(cfg, labels));
  }
}
