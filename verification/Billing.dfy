/** The billing queue: any number of producers, a bounded channel and a pool of consumers,
    in every interleaving with cancellation and shutdown. Events are identified by number. */
module Billing {

  type Event = int

  datatype Hand = Idle | Taken(ev: Event) | Persisting(ev: Event) | Gone

  datatype StopPc = Running | Draining | Clean | TimedOut

  datatype Config = Config(bufferSize: nat, workers: nat)

  datatype State = State(
    queue: seq<Event>, closed: bool, started: bool, cancelled: bool, stop: StopPc, hands: seq<Hand>, books: Books)

  /** Every event ever handed to Enqueue, by what became of it. */
  datatype Books = Books(
    offered: seq<Event>, dropped: seq<Event>, panicked: seq<Event>, accepted: seq<Event>,
    written: seq<Event>, failed: seq<Event>, discarded: seq<Event>)

  const INIT := State([], false, false, false, Running, [], Books([], [], [], [], [], [], []))

  datatype Label =
    | Enqueue(ev: Event)
    | Start
    | Take(worker: nat)
    | Check(worker: nat)
    | Persist(worker: nat, ok: bool)
    | Leave(worker: nat)
    | Cancel
    | Stop
    | Drained
    | Timeout

  /** A send on a closed channel panics; a full buffer drops the event. */
  function EnqueueNext(cfg: Config, s: State, ev: Event): State {
    var b := s.books.(offered := s.books.offered + [ev]);
    if s.closed then
      s.(books := b.(panicked := b.panicked + [ev]))
    else if |s.queue| < cfg.bufferSize then
      s.(queue := s.queue + [ev], books := b.(accepted := b.accepted + [ev]))
    else
      s.(books := b.(dropped := b.dropped + [ev]))
  }

  function SetHand(s: State, i: nat, h: Hand): State
    requires i < |s.hands|
  {
    s.(hands := s.hands[i := h])
  }

  predicate AllGone(hands: seq<Hand>) {
    forall i :: 0 <= i < |hands| ==> hands[i].Gone?
  }

  function Idlers(n: nat): (hands: seq<Hand>)
    ensures |hands| == n && forall i :: 0 <= i < n ==> hands[i] == Idle
  {
    seq(n, _ => Idle)
  }

  /** One consumer's step: receive, look at the context, insert. */
  function WorkerNext(s: State, i: nat, l: Label): State
    requires i < |s.hands|
  {
    match (l, s.hands[i])
    case (Take(_), Idle) =>
      if s.queue == [] then s else SetHand(s.(queue := s.queue[1..]), i, Taken(s.queue[0]))
    case (Check(_), Taken(ev)) =>
      if s.cancelled then
        SetHand(s.(books := s.books.(discarded := s.books.discarded + [ev])), i, Gone)
      else
        SetHand(s, i, Persisting(ev))
    case (Persist(_, ok), Persisting(ev)) =>
      var b := if ok then s.books.(written := s.books.written + [ev]) else s.books.(failed := s.books.failed + [ev]);
      SetHand(s.(books := b), i, Idle)
    case (Leave(_), Idle) => if s.closed && s.queue == [] then SetHand(s, i, Gone) else s
    case _ => s
  }

  function Next(cfg: Config, s: State, l: Label): State {
    match l
    case Enqueue(ev) => EnqueueNext(cfg, s, ev)
    case Start => if s.started then s else s.(started := true, hands := Idlers(cfg.workers))
    case Take(i) => if i < |s.hands| then WorkerNext(s, i, l) else s
    case Check(i) => if i < |s.hands| then WorkerNext(s, i, l) else s
    case Persist(i, _) => if i < |s.hands| then WorkerNext(s, i, l) else s
    case Leave(i) => if i < |s.hands| then WorkerNext(s, i, l) else s
    case Cancel => s.(cancelled := true)
    case Stop => if s.stop.Running? then s.(closed := true, stop := Draining) else s
    case Drained => if s.stop.Draining? && AllGone(s.hands) then s.(stop := Clean) else s
    case Timeout => if s.stop.Draining? then s.(stop := TimedOut) else s
  }

  function Run(cfg: Config, s: State, labels: seq<Label>): State
    decreases |labels|
  {
    if labels == [] then s else Run(cfg, Next(cfg, s, labels[0]), labels[1..])
  }

  // ---- Conservation, event by event ----

  function Count(s: seq<Event>, e: Event): nat {
    if s == [] then 0 else Count(s[..|s| - 1], e) + if s[|s| - 1] == e then 1 else 0
  }

  lemma CountSnoc(s: seq<Event>, ev: Event, e: Event)
    ensures Count(s + [ev], e) == Count(s, e) + if ev == e then 1 else 0
  {
    assert (s + [ev])[..|s|] == s;
  }

  lemma {:induction false} CountHead(s: seq<Event>, e: Event)
    requires s != []
    ensures Count(s, e) == Count(s[1..], e) + if s[0] == e then 1 else 0
  {
    if |s| == 1 {
    } else {
      CountHead(s[..|s| - 1], e);
      assert s[1..][..|s| - 2] == s[..|s| - 1][1..];
    }
  }

  function Held(h: Hand, e: Event): nat {
    if (h.Taken? || h.Persisting?) && h.ev == e then 1 else 0
  }

  /** How many workers hold the event. */
  function InHands(hands: seq<Hand>, e: Event): nat {
    if hands == [] then 0 else InHands(hands[..|hands| - 1], e) + Held(hands[|hands| - 1], e)
  }

  lemma {:induction false} HandChange(hands: seq<Hand>, i: nat, h: Hand, e: Event)
    requires i < |hands|
    ensures InHands(hands[i := h], e) + Held(hands[i], e) == InHands(hands, e) + Held(h, e)
  {
    var init := hands[..|hands| - 1];
    if i == |hands| - 1 {
      assert hands[i := h][..|hands| - 1] == init;
    } else {
      assert hands[i := h][..|hands| - 1] == init[i := h];
      HandChange(init, i, h, e);
    }
  }

  lemma {:induction false} EmptyHands(hands: seq<Hand>, e: Event)
    requires forall i :: 0 <= i < |hands| ==> hands[i].Gone? || hands[i].Idle?
    ensures InHands(hands, e) == 0
  {
    if hands == [] {
    } else {
      EmptyHands(hands[..|hands| - 1], e);
    }
  }

  /** Where the copies of one event are. */
  predicate Conserved(s: State, e: Event) {
    var b := s.books;
    && Count(b.offered, e) == Count(b.accepted, e) + Count(b.dropped, e) + Count(b.panicked, e)
    && Count(b.accepted, e) ==
       Count(s.queue, e) + InHands(s.hands, e) + Count(b.written, e) + Count(b.failed, e) + Count(b.discarded, e)
  }

  ghost predicate ShutdownInv(cfg: Config, s: State) {
    && |s.queue| <= cfg.bufferSize
    && (!s.started ==> s.hands == [] && s.queue == s.books.accepted && s.books.discarded == [])
    && (s.started ==> |s.hands| == cfg.workers)
    && (!s.cancelled ==>
          && s.books.discarded == []
          && forall i :: 0 <= i < |s.hands| && s.hands[i].Gone? ==> s.closed && s.queue == [])
  }

  ghost predicate Inv(cfg: Config, s: State) {
    ShutdownInv(cfg, s) && forall e :: Conserved(s, e)
  }

  /** A worker's step moves its event from one place to the next. */
  lemma WorkerConserves(s: State, i: nat, l: Label, e: Event)
    requires Conserved(s, e) && i < |s.hands|
    ensures Conserved(WorkerNext(s, i, l), e)
  {
    hide InHands, Count;
    HandChange(s.hands, i, WorkerNext(s, i, l).hands[i], e);
    match s.hands[i]
    case Taken(ev) => CountSnoc(s.books.discarded, ev, e);
    case Persisting(ev) =>
      CountSnoc(s.books.written, ev, e);
      CountSnoc(s.books.failed, ev, e);
    case Idle =>
      if s.queue != [] {
        CountHead(s.queue, e);
      }
    case Gone =>
  }

  lemma EnqueueConserves(cfg: Config, s: State, ev: Event, e: Event)
    requires Conserved(s, e)
    ensures Conserved(EnqueueNext(cfg, s, ev), e)
  {
    hide InHands, Count;
    CountSnoc(s.queue, ev, e);
    CountSnoc(s.books.offered, ev, e);
    CountSnoc(s.books.accepted, ev, e);
    CountSnoc(s.books.dropped, ev, e);
    CountSnoc(s.books.panicked, ev, e);
  }

  lemma StepConserves(cfg: Config, s: State, l: Label, e: Event)
    requires ShutdownInv(cfg, s) && Conserved(s, e)
    ensures Conserved(Next(cfg, s, l), e)
  {
    hide InHands, Count, WorkerNext, EnqueueNext;
    match l
    case Enqueue(ev) => EnqueueConserves(cfg, s, ev, e);
    case Start =>
      if !s.started {
        EmptyHands(s.hands, e);
        EmptyHands(Idlers(cfg.workers), e);
      }
    case Take(i) => if i < |s.hands| { WorkerConserves(s, i, l, e); }
    case Check(i) => if i < |s.hands| { WorkerConserves(s, i, l, e); }
    case Persist(i, _) => if i < |s.hands| { WorkerConserves(s, i, l, e); }
    case Leave(i) => if i < |s.hands| { WorkerConserves(s, i, l, e); }
    case _ =>
  }

  lemma StepKeepsShutdown(cfg: Config, s: State, l: Label)
    requires ShutdownInv(cfg, s)
    ensures ShutdownInv(cfg, Next(cfg, s, l))
  {
  }

  lemma StepKeepsInv(cfg: Config, s: State, l: Label)
    requires Inv(cfg, s)
    ensures Inv(cfg, Next(cfg, s, l))
  {
    hide Conserved, ShutdownInv, Next;
    StepKeepsShutdown(cfg, s, l);
    forall e
      ensures Conserved(Next(cfg, s, l), e)
    {
      StepConserves(cfg, s, l, e);
    }
  }

  lemma {:induction false} RunKeepsInv(cfg: Config, s: State, labels: seq<Label>)
    requires Inv(cfg, s)
    ensures Inv(cfg, Run(cfg, s, labels))
    decreases |labels|
  {
    hide Inv, Next;
    if labels == [] {
    } else {
      StepKeepsInv(cfg, s, labels[0]);
      RunKeepsInv(cfg, Next(cfg, s, labels[0]), labels[1..]);
    }
  }

  lemma ReachableInv(cfg: Config, labels: seq<Label>)
    ensures Inv(cfg, Run(cfg, INIT, labels))
  {
    RunKeepsInv(cfg, INIT, labels);
  }

  /** At every moment of every run each copy of an offered event is in exactly one place:
      dropped, lost to a panic, queued, in a worker's hands, written, failed or discarded; and
      the queue never exceeds its capacity. */
  lemma Conservation(cfg: Config, labels: seq<Label>, e: Event)
    ensures var s := Run(cfg, INIT, labels);
            var b := s.books;
            && |s.queue| <= cfg.bufferSize
            && Count(b.offered, e) ==
               Count(b.dropped, e) + Count(b.panicked, e) + Count(s.queue, e) + InHands(s.hands, e)
               + Count(b.written, e) + Count(b.failed, e) + Count(b.discarded, e)
  {
    hide Run;
    ReachableInv(cfg, labels);
    assert Conserved(Run(cfg, INIT, labels), e);
  }

  /** So an event offered once is not persisted twice, nor persisted after being dropped. */
  lemma NotPersistedTwice(cfg: Config, labels: seq<Label>, e: Event)
    requires Count(Run(cfg, INIT, labels).books.offered, e) <= 1
    ensures var b := Run(cfg, INIT, labels).books;
            Count(b.written, e) + Count(b.failed, e) + Count(b.dropped, e) <= 1
  {
    hide Run;
    Conservation(cfg, labels, e);
  }

  /** accepted = written + failed, for every event. */
  ghost predicate AllPersisted(b: Books) {
    forall e :: Persisted(b, e)
  }

  predicate Persisted(b: Books, e: Event) {
    Count(b.accepted, e) == Count(b.written, e) + Count(b.failed, e)
  }

  /** When Stop has finished without a timeout, accepted = written + failed for every event,
      exactly when nothing was left in the queue and nothing was discarded. Seen from the
      caller: always if the workers were started and their context was never cancelled; if they
      were never started, only if nothing was accepted. */
  lemma CleanStop(cfg: Config, labels: seq<Label>)
    requires var s := Run(cfg, INIT, labels); s.stop.Clean? && AllGone(s.hands)
    ensures var s := Run(cfg, INIT, labels);
            var b := s.books;
            && (AllPersisted(b) <==> s.queue == [] && b.discarded == [])
            && (s.started && cfg.workers > 0 && !s.cancelled ==> AllPersisted(b))
            && (!s.started ==> (AllPersisted(b) <==> b.accepted == []))
  {
    hide Run, InHands;
    var s := Run(cfg, INIT, labels);
    ReachableInv(cfg, labels);
    forall e
      ensures Conserved(s, e) && InHands(s.hands, e) == 0
    {
      EmptyHands(s.hands, e);
    }
    if s.queue != [] {
      var e := s.queue[0];
      CountHead(s.queue, e);
      assert Conserved(s, e) && InHands(s.hands, e) == 0;
      assert !Persisted(s.books, e);
    } else if s.books.discarded != [] {
      var e := s.books.discarded[0];
      CountHead(s.books.discarded, e);
      assert Conserved(s, e) && InHands(s.hands, e) == 0;
      assert !Persisted(s.books, e);
    } else {
      forall e
        ensures Persisted(s.books, e)
      {
        assert Conserved(s, e) && InHands(s.hands, e) == 0;
        assert Count([], e) == 0;
      }
    }
    if s.started && cfg.workers > 0 && !s.cancelled {
      assert s.hands[0].Gone?;
    }
  }

  /** If they never were, Stop reports a clean end although the event is still queued. */
  lemma StopWithoutStart(cfg: Config, ev: Event)
    requires cfg.bufferSize > 0
    ensures var s := Run(cfg, INIT, [Enqueue(ev), Stop, Drained]);
            s.stop == Clean && s.queue == [ev] && s.books.written == []
  {
    var labels := [Enqueue(ev), Stop, Drained];
    var s1 := Next(cfg, INIT, Enqueue(ev));
    var s2 := Next(cfg, s1, Stop);
    var s3 := Next(cfg, s2, Drained);
    assert labels[1..] == [Stop, Drained] && [Stop, Drained][1..] == [Drained] && [Drained][1..] == [];
    assert Run(cfg, s3, []) == s3;
    assert Run(cfg, s2, [Drained]) == s3;
    assert Run(cfg, s1, [Stop, Drained]) == s3;
  }

  lemma RunCons(cfg: Config, s: State, l: Label, rest: seq<Label>)
    ensures Run(cfg, s, [l] + rest) == Run(cfg, Next(cfg, s, l), rest)
  {
    assert ([l] + rest)[1..] == rest;
  }

  /** Idle workers leave a closed and empty channel, one after the other. */
  lemma {:induction false} EveryoneLeaves(cfg: Config, s: State, i: nat) returns (labels: seq<Label>)
    requires s.closed && s.queue == [] && i <= |s.hands|
    requires forall j :: 0 <= j < |s.hands| ==> s.hands[j].Gone? || (i <= j && s.hands[j].Idle?)
    ensures var s' := Run(cfg, s, labels);
            s' == s.(hands := s'.hands) && AllGone(s'.hands)
    decreases |s.hands| - i
  {
    if i == |s.hands| {
      labels := [];
    } else {
      var s1 := Next(cfg, s, Leave(i));
      labels := EveryoneLeaves(cfg, s1, i + 1);
      RunCons(cfg, s, Leave(i), labels);
      labels := [Leave(i)] + labels;
    }
  }

  lemma {:induction false} RunAppend(cfg: Config, s: State, a: seq<Label>, b: seq<Label>)
    ensures Run(cfg, s, a + b) == Run(cfg, Run(cfg, s, a), b)
    decreases |a|
  {
    hide Next;
    if a == [] {
      assert a + b == b;
    } else {
      assert (a + b)[1..] == a[1..] + b;
      RunAppend(cfg, Next(cfg, s, a[0]), a[1..], b);
    }
  }

  /** The first worker throws away the event it has taken once its context is cancelled. */
  lemma DiscardOne(cfg: Config, ev: Event) returns (labels: seq<Label>)
    requires cfg.bufferSize > 0 && cfg.workers > 0
    ensures var s := Run(cfg, INIT, labels);
            && s.started && s.closed && s.queue == [] && s.stop == Draining
            && s.hands == Idlers(cfg.workers)[0 := Gone]
            && s.books == Books([ev], [], [], [ev], [], [], [ev])
  {
    hide Run;
    labels := [Start] + ([Enqueue(ev)] + ([Take(0)] + ([Cancel] + ([Check(0)] + ([Stop] + [])))));
    var s1 := Next(cfg, INIT, Start);
    var s2 := Next(cfg, s1, Enqueue(ev));
    var s3 := Next(cfg, s2, Take(0));
    var s4 := Next(cfg, s3, Cancel);
    var s5 := Next(cfg, s4, Check(0));
    assert s2.queue == [ev] && s3.queue == [];
    RunCons(cfg, INIT, Start, [Enqueue(ev)] + ([Take(0)] + ([Cancel] + ([Check(0)] + ([Stop] + [])))));
    RunCons(cfg, s1, Enqueue(ev), [Take(0)] + ([Cancel] + ([Check(0)] + ([Stop] + []))));
    RunCons(cfg, s2, Take(0), [Cancel] + ([Check(0)] + ([Stop] + [])));
    RunCons(cfg, s3, Cancel, [Check(0)] + ([Stop] + []));
    RunCons(cfg, s4, Check(0), [Stop] + []);
    RunCons(cfg, s5, Stop, []);
    RunNone(cfg, Next(cfg, s5, Stop));
  }

  lemma RunNone(cfg: Config, s: State)
    ensures Run(cfg, s, []) == s
  {
  }

  /** And a cancelled context gives no guarantee either, with any number of workers: a clean stop
      may have discarded an accepted event. */
  lemma CancelledDiscards(cfg: Config, ev: Event) returns (labels: seq<Label>)
    requires cfg.bufferSize > 0 && cfg.workers > 0
    ensures var s := Run(cfg, INIT, labels);
            s.started && s.stop == Clean && s.books.accepted == [ev] == s.books.discarded && s.books.written == []
  {
    hide Run;
    var first := DiscardOne(cfg, ev);
    var s := Run(cfg, INIT, first);
    var leave := EveryoneLeaves(cfg, s, 1);
    var s' := Run(cfg, s, leave);
    RunAppend(cfg, INIT, first, leave);
    RunAppend(cfg, INIT, first + leave, [Drained] + []);
    RunCons(cfg, s', Drained, []);
    RunNone(cfg, Next(cfg, s', Drained));
    labels := first + leave + ([Drained] + []);
  }

  // ---- Enqueue after Stop ----

  /** An Enqueue comes after a Stop; `stopped` says whether one went before these labels. */
  predicate LateEnqueue(labels: seq<Label>, stopped: bool) {
    labels != []
    && ((labels[0].Enqueue? && stopped) || LateEnqueue(labels[1..], stopped || labels[0].Stop?))
  }

  lemma {:induction false} LateEnqueueMeans(labels: seq<Label>, stopped: bool)
    ensures LateEnqueue(labels, stopped) <==>
            (exists j :: 0 <= j < |labels| && labels[j].Enqueue? && stopped)
            || exists i, j :: 0 <= i < j < |labels| && labels[i].Stop? && labels[j].Enqueue?
    decreases |labels|
  {
    if labels == [] {
    } else {
      var rest := labels[1..];
      LateEnqueueMeans(rest, stopped || labels[0].Stop?);
      assert forall j :: 0 <= j < |rest| ==> rest[j] == labels[j + 1];
      assert forall j :: 0 < j < |labels| ==> labels[j] == rest[j - 1];
    }
  }

  lemma {:induction false} PanicsFrom(cfg: Config, s: State, labels: seq<Label>)
    requires s.closed <==> !s.stop.Running?
    ensures Run(cfg, s, labels).books.panicked != [] <==> s.books.panicked != [] || LateEnqueue(labels, s.closed)
    decreases |labels|
  {
    hide Next;
    if labels == [] {
    } else {
      PanicStep(cfg, s, labels[0]);
      PanicsFrom(cfg, Next(cfg, s, labels[0]), labels[1..]);
    }
  }

  lemma PanicStep(cfg: Config, s: State, l: Label)
    requires s.closed <==> !s.stop.Running?
    ensures var s' := Next(cfg, s, l);
            && (s'.closed <==> !s'.stop.Running?)
            && (s'.closed <==> s.closed || l.Stop?)
            && (s'.books.panicked != [] <==> s.books.panicked != [] || (l.Enqueue? && s.closed))
  {
  }

  /** In every run, some Enqueue panicked exactly when one came after a Stop. */
  lemma PanicExact(cfg: Config, labels: seq<Label>)
    ensures Run(cfg, INIT, labels).books.panicked != [] <==>
            exists i, j :: 0 <= i < j < |labels| && labels[i].Stop? && labels[j].Enqueue?
  {
    PanicsFrom(cfg, INIT, labels);
    LateEnqueueMeans(labels, false);
  }

  // ---- What each label decides ----

  /** An event offered is dropped exactly when the buffer is full and the channel open, accepted
      exactly when there is room and the channel open, and panics exactly when it is closed. */
  lemma EnqueueDecides(cfg: Config, labels: seq<Label>, ev: Event)
    ensures var s := Run(cfg, INIT, labels);
            var s' := Run(cfg, INIT, labels + [Enqueue(ev)]);
            && s'.books.dropped == s.books.dropped + (if !s.closed && |s.queue| == cfg.bufferSize then [ev] else [])
            && s'.books.accepted == s.books.accepted + (if !s.closed && |s.queue| < cfg.bufferSize then [ev] else [])
            && s'.books.panicked == s.books.panicked + (if s.closed then [ev] else [])
            && s'.books.offered == s.books.offered + [ev]
  {
    hide Run, Conserved;
    var s := Run(cfg, INIT, labels);
    ReachableInv(cfg, labels);
    RunAppend(cfg, INIT, labels, [Enqueue(ev)] + []);
    RunCons(cfg, s, Enqueue(ev), []);
    RunNone(cfg, Next(cfg, s, Enqueue(ev)));
    assert [Enqueue(ev)] + [] == [Enqueue(ev)];
  }

  /** An insert that succeeds counts as written, one that fails as failed, and nothing else does. */
  lemma PersistDecides(cfg: Config, s: State, l: Label)
    ensures var s' := Next(cfg, s, l);
            var hit := l.Persist? && l.worker < |s.hands| && s.hands[l.worker].Persisting?;
            && s'.books.written == (if hit && l.ok then s.books.written + [s.hands[l.worker].ev] else s.books.written)
            && s'.books.failed == (if hit && !l.ok then s.books.failed + [s.hands[l.worker].ev] else s.books.failed)
  {
  }

  /** The queue is first in, first out: what is queued is the latest of what was accepted, in order. */
  predicate Fifo(s: State) {
    |s.queue| <= |s.books.accepted| && s.queue == s.books.accepted[|s.books.accepted| - |s.queue|..]
  }

  lemma StepKeepsFifo(cfg: Config, s: State, l: Label)
    requires Fifo(s)
    ensures Fifo(Next(cfg, s, l))
  {
  }

  lemma {:induction false} QueueIsFifo(cfg: Config, s: State, labels: seq<Label>)
    requires Fifo(s)
    ensures Fifo(Run(cfg, s, labels))
    decreases |labels|
  {
    hide Next, Fifo;
    if labels == [] {
    } else {
      StepKeepsFifo(cfg, s, labels[0]);
      QueueIsFifo(cfg, Next(cfg, s, labels[0]), labels[1..]);
    }
  }

  /** Stop is clean only at a moment when no worker is left. */
  lemma CleanOnlyWhenAllGone(cfg: Config, s: State, l: Label)
    requires !s.stop.Clean? && Next(cfg, s, l).stop.Clean?
    ensures s.closed || s.stop == Draining
    ensures AllGone(s.hands) && Next(cfg, s, l).hands == s.hands && Next(cfg, s, l).books == s.books
  {
  }
}
