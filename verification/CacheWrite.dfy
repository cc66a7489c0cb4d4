/** What the stream handler writes to the response cache: Pipeline's handler, Replay's
    accumulator and the cache gate put together. */
module CacheWrite {
  import opened Provider
  import opened Sse
  import P = Pipeline
  import R = Replay

  /** The handler is through with status 200 and the request context is alive: it aggregates
      what it has seen and offers that to the cache. */
  predicate Offers(s: P.State) {
    s.h.pc.Ended? && P.StatusOk(s.h.pc.why) && !s.cancelled
  }

  /** The events the handler has seen. A chunk is folded into the accumulator before its write
      is tried. */
  function Seen(s: P.State): seq<StreamEvent>
    requires s.h.got <= |s.f.fwd|
  {
    s.f.fwd[..s.h.got]
  }

  /** The cache entry, if the gate lets it in. */
  ghost predicate Caches(s: P.State, reqModel: string, promptTok: int, now: int, entry: Response) {
    && Offers(s) && s.h.got <= |s.f.fwd| && AllChunks(Seen(s))
    && entry == R.Stored(ChunksOf(Seen(s)), reqModel, now)
    && R.Cacheable(entry, promptTok)
  }

  /** The handler has seen all there was, and the upstream had finished its answer. */
  ghost predicate Whole(cfg: P.Config, s: P.State) {
    s.h.got <= |s.f.fwd| && P.Body(cfg).complete && Seen(s) == P.Body(cfg).events
  }

  /** How many chunks have reached the client. */
  function OnWire(s: P.State): int
    requires s.h.pc.Ended?
  {
    |s.h.frames| - if s.h.pc.done then 1 else 0
  }

  /** In every run, what is offered to the cache is an answer in full exactly when the upstream had
      finished it and at most its last chunk did not reach the client; in particular if no chunk
      write failed. Chunks only are folded. */
  lemma OfferedExact(cfg: P.Config, labels: seq<P.Label>)
    requires Offers(P.Exec(cfg, labels))
    ensures var s := P.Exec(cfg, labels);
            && s.h.got <= |s.f.fwd| && AllChunks(Seen(s))
            && (Whole(cfg, s) <==> P.Body(cfg).complete && |P.Body(cfg).events| <= OnWire(s) + 1)
            && (s.h.pc.why == P.Closed ==> Whole(cfg, s) && OnWire(s) == |P.Body(cfg).events|)
            && (s.h.pc.why == P.WriteErr ==> OnWire(s) == s.h.got - 1)
  {
    hide ReadFrom, P.LastErr, P.Exec;
    var s := P.Exec(cfg, labels);
    P.ReachableInv(cfg, labels);
    P.ForwardedPrefix(cfg, s);
    P.SentPrefix(cfg, s.cancelled, s.r);
    ErrorOnlyAtEnd(cfg.vendor, NO_META, cfg.lines);
    if s.h.pc.why == P.Closed {
      assert s.f.fwd[..s.h.got] == s.f.fwd;
    } else {
      assert Seen(s) == s.f.fwd[..s.h.got - 1] + [s.f.fwd[s.h.got - 1]];
    }
  }

  /** So a cache entry made without a failed chunk write is the aggregate of one whole upstream
      answer, and replaying it gives the same answer again; it says what the upstream said as
      choice 0 exactly when no other choice carried content. */
  lemma CachedAnswerIsWhole(
    cfg: P.Config, labels: seq<P.Label>, reqModel: string, promptTok: int, now: int, entry: Response,
    reqId: string, now': int, now'': int)
    requires Caches(P.Exec(cfg, labels), reqModel, promptTok, now, entry) && now != 0
    requires P.Exec(cfg, labels).h.pc.why == P.Closed
    ensures var body := P.Body(cfg);
            && body.complete && AllChunks(body.events)
            && entry == R.Stored(ChunksOf(body.events), reqModel, now)
            && (entry.choices[0].content == R.Collect(ChunksOf(body.events), 0) <==>
                R.OnlyChoice(ChunksOf(body.events), 0))
            && R.Stored(R.Chunks(entry, reqId, now'), reqModel, now'') == entry
  {
    hide ReadFrom, P.Exec, R.Stored, R.Chunks, R.Cacheable;
    var s := P.Exec(cfg, labels);
    OfferedExact(cfg, labels);
    R.StoredContentExact(ChunksOf(Seen(s)), reqModel, now);
    R.RoundTrip(ChunksOf(Seen(s)), reqModel, promptTok, reqId, now, now', now'');
  }

  const FIRST := Chunk("id", 1, "m", [StreamChoice(0, Delta("", "a"), "stop")], None)
  const SECOND := Chunk("id", 1, "m", [StreamChoice(0, Delta("", "b"), "")], None)

  /** A body of two chunks and the terminator. */
  lemma TwoChunks() returns (cfg: P.Config)
    ensures cfg.lines != [] && HandleLine(cfg.vendor, NO_META, cfg.lines[0]) == (NO_META, Emit(FIRST))
    ensures P.Body(cfg) == Transcript([ChunkEvent(FIRST), ChunkEvent(SECOND)], true)
  {
    var decode := (d: string) => if d == "x" then ChunkJson(FIRST) else ChunkJson(SECOND);
    var one, two, three := "data:x", "data:y", "data:[DONE]";
    cfg := P.Config(OpenAi(decode), [one, two, three]);
    assert DataOf(one) == Some("x") by {
      assert one[0] != ':' && one[..5] == "data:" && one[5..] == "x" && one[5..][0] != ' ';
    }
    assert DataOf(two) == Some("y") by {
      assert two[0] != ':' && two[..5] == "data:" && two[5..] == "y" && two[5..][0] != ' ';
    }
    assert DataOf(three) == Some("[DONE]") by {
      assert three[0] != ':' && three[..5] == "data:" && three[5..] == "[DONE]" && three[5..][0] != ' ';
    }
    var v := cfg.vendor;
    assert cfg.lines[1..] == [two, three] && [two, three][1..] == [three];
    assert ReadFrom(v, NO_META, [three]) == Transcript([], true);
    assert ReadFrom(v, NO_META, [two, three]) == Transcript([ChunkEvent(SECOND)], true);
  }

  /** After a failed write with the context still alive, a prefix of the answer can be cached:
      all it takes is that "stop" was seen. Later requests are served "a" where the upstream
      said "ab". */
  lemma PrefixIsCached(reqModel: string, promptTok: int, now: int) returns (cfg: P.Config, labels: seq<P.Label>)
    requires promptTok > 0
    ensures P.Body(cfg) == Transcript([ChunkEvent(FIRST), ChunkEvent(SECOND)], true)
    ensures var entry := Response("id", 1, "m", [Choice(0, "a", "stop")], None);
            Caches(P.Exec(cfg, labels), reqModel, promptTok, now, entry)
  {
    hide ReadFrom, HandleLine, P.Exec, R.ObserveAll, R.Observed;
    cfg := TwoChunks();
    labels := P.FIRST_WRITE_FAILS;
    P.FirstWriteFails(cfg, FIRST);
    var s := P.Exec(cfg, labels);
    assert Seen(s) == [ChunkEvent(FIRST)];
    OneChunk(FIRST);
    R.ObserveOne(R.EMPTY, FIRST);
    R.ObserveSingle(R.EMPTY, FIRST, FIRST.choices[0]);
    var entry := R.Stored([FIRST], reqModel, now);
    assert "" + "a" == "a";
    assert entry.choices[0].content != "";
  }

  lemma OneChunk(c: Chunk)
    ensures AllChunks([ChunkEvent(c)]) && ChunksOf([ChunkEvent(c)]) == [c]
  {
    assert [ChunkEvent(c)][1..] == [];
    assert [c] + [] == [c];
  }
}
