/** The streaming path end to end: the chain and retry loops of Router, where each attempt
    that gets a stream is one run of Pipeline, up to and beyond its commit point. */
module StreamRouter {
  import opened Provider
  import opened Sse
  import P = Pipeline
  import R = Router

  /** What the provider's ChatCompletionStream answers: an error, or a body that the
      attempt's processes then work through in the order of `labels`. */
  datatype Call = CallError(err: Error) | Stream(cfg: P.Config, labels: seq<P.Label>)

  datatype StreamAttempt =
    StreamAttempt(granted: bool, call: Call, took: nat, random: real, sleep: Option<nat>, idle: nat)
  {
    /** Where the attempt's processes have got to. */
    function Now(): P.State
      requires call.Stream?
    {
      P.Exec(call.cfg, call.labels)
    }

    /** streamAttemptOnce: success is the commit, the moment a first chunk was peeked. */
    function Outcome(): R.Outcome {
      if !granted then R.Refused
      else if call.CallError? then R.Failed(call.err)
      else
        match Now().f.pc
        case Peeking => R.Blocked
        case PeekFailed(e) => R.Failed(e)
        case _ => R.Success
    }

    /** What the attempt has passed to the caller. */
    function Forwarded(): seq<StreamEvent> {
      if granted && call.Stream? then Now().f.fwd else []
    }

    /** What was passed on is a prefix of the attempt's own events; after a cancellation possibly
        with the error for a torn line. */
    predicate OwnEvents()
      requires call.Stream?
    {
      || Forwarded() <= P.Body(call.cfg).events
      || (Now().cancelled && Torn(P.Body(call.cfg), Forwarded()))
    }

    /** What the breaker was told about the attempt's permit. */
    function Releases(): seq<Option<Error>> {
      if !granted then []
      else if call.CallError? then [BreakerObservation(Some(call.err))]
      else Now().f.releases
    }

    /** The attempt's permit is no longer in use: the call failed, the peek failed, or the
        forwarder is through. */
    predicate Over() {
      granted && (call.CallError? || Now().f.pc.PeekFailed? || Now().f.pc.Finished?)
    }

    function AsAttempt(): R.Attempt {
      R.Attempt(Outcome(), took, random, sleep, idle)
    }
  }

  type Env = nat -> StreamAttempt

  function AsEnv(env: Env): R.Env {
    (k: nat) => env(k).AsAttempt()
  }

  function Route(p: R.RetryPolicy, env: Env, n: nat, start: int): R.Run {
    R.Route(p, AsEnv(env), n, start)
  }

  /** A permit is released exactly once, when its attempt is over, and as a failure only for
      a retryable error. */
  lemma PermitOfAttempt(a: StreamAttempt)
    ensures |a.Releases()| == if a.Over() then 1 else 0
    ensures a.Releases() != [] && a.Releases()[0].Some? ==> IsRetryable(a.Releases()[0].value)
    ensures a.Outcome().Failed? ==> a.Over()
    ensures a.Outcome().Failed? && !IsRetryable(a.Outcome().err) ==> a.Releases() == [None]
  {
    hide P.Exec, P.Body;
    if a.granted && a.call.Stream? {
      P.PermitReleasedOnce(a.call.cfg, a.call.labels);
      P.ReachableInv(a.call.cfg, a.call.labels);
    }
  }

  /** Only a committed attempt has passed anything on, and then a prefix of its own events. */
  lemma ForwardedByAttempt(a: StreamAttempt)
    ensures a.Outcome() != R.Success ==> a.Forwarded() == []
    ensures a.Outcome() == R.Success ==>
              && a.granted && a.call.Stream?
              && a.OwnEvents()
              && P.Body(a.call.cfg).events != [] && P.Body(a.call.cfg).events[0].ChunkEvent?
  {
    hide P.Exec, P.Body;
    if a.granted && a.call.Stream? {
      P.ReceivedPrefix(a.call.cfg, a.call.labels);
    }
  }

  /** In every streaming run, at every moment: all attempts but the last passed nothing to
      the caller and have given back their permits; what the caller received is a prefix of
      the events of the last attempt, up to the error for a torn line after a cancellation; and there was no later attempt than a committed one. */
  lemma OneAttemptReachesCaller(p: R.RetryPolicy, env: Env, n: nat, start: int)
    requires n > 0
    ensures var run := Route(p, env, n, start);
            var last := |run.visits| - 1;
            && last >= 0
            && (forall j: nat :: j < last ==>
                  && env(j).Forwarded() == []
                  && |env(j).Releases()| == (if env(j).granted then 1 else 0))
            && (run.result == R.Reply <==> env(last).Outcome() == R.Success)
            && (run.result == R.Reply ==> env(last).call.Stream? && env(last).OwnEvents())
            && (run.result != R.Reply ==> env(last).Forwarded() == [])
  {
    hide P.Exec, P.Body;
    var run := Route(p, env, n, start);
    R.RunShape(p, AsEnv(env), n, start);
    var last := |run.visits| - 1;
    ForwardedByAttempt(env(last));
    forall j: nat | j < last
      ensures env(j).Forwarded() == [] && |env(j).Releases()| == (if env(j).granted then 1 else 0)
    {
      assert R.LegalMove(AsEnv(env), run.visits, j);
      PermitOfAttempt(env(j));
      ForwardedByAttempt(env(j));
    }
  }

  /** The whole path, to the client: if no write failed, `[DONE]` is on the wire only after
      every chunk of one complete upstream answer, and nothing else is; and that upstream's body
      had its own terminator with nothing broken or failed before it. */
  lemma DoneEndToEnd(p: R.RetryPolicy, env: Env, n: nat, start: int)
    requires n > 0
    ensures var run := Route(p, env, n, start);
            && run.visits != []
            && var a := env(|run.visits| - 1);
               && (run.result == R.Reply ==> a.call.Stream?)
               && (run.result == R.Reply && a.call.Stream? && P.DoneFrame in a.Now().h.frames ==>
                 && (P.LooksComplete(a.call.cfg, a.Now()) <==> !a.Now().h.writeFailed)
                 && (!a.Now().h.writeFailed ==> WellEnded(a.call.cfg.vendor, a.call.cfg.lines)))
  {
    hide P.Exec, P.Body;
    OneAttemptReachesCaller(p, env, n, start);
    var a := env(|Route(p, env, n, start).visits| - 1);
    if a.call.Stream? {
      P.DoneMeansComplete(a.call.cfg, a.call.labels);
      if !WellEnded(a.call.cfg.vendor, a.call.cfg.lines) {
        P.NoFalseDone(a.call.cfg, a.call.labels);
      }
    }
  }
}
